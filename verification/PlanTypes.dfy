/** The host-plan document: nodes, their blocks and the document-wide policy. */
module PlanTypes {
  import opened Wrappers
  import opened Json

  type Id = string

  datatype Action = Action(tool: string, args: Value)

  datatype Validation = Validation(tool: string, args: Value, timeoutMs: int)

  datatype Recovery = Recovery(tool: string, args: Value, maxAttempts: int)

  datatype ContextDelta = ContextDelta(name: string, value: Value, provenance: string)

  datatype WaitSpec = WaitSpec(schemaRevision: string, trigger: string, correlation: Value, contextDelta: seq<ContextDelta>)

  datatype ForEach = ForEach(source: string, item: string)

  datatype Node = Node(
    id: Id,
    dependsOn: seq<Id>,
    hasWhen: bool,
    target: Option<string>,
    action: Option<Action>,
    wait: Option<WaitSpec>,
    validate: Option<Validation>,
    recover: Option<Recovery>,
    compensate: Option<Action>,
    maxAttempts: int,
    continueOnFailure: bool,
    forEach: Option<ForEach>
  )

  datatype Document = Document(
    nodes: seq<Node>,
    variables: map<string, Value>,
    convergeMaxPasses: int,
    defaultMaxPasses: int,
    defaultMaxAttempts: int,
    maxConcurrency: int,
    abortOnExhaustion: bool
  )

  const MAX_NODES := 256
  const MAX_FAN_OUT := 64
  const MAX_TOTAL_ATTEMPTS := 256
  const MAX_PASSES := 32

  /** The nodes indexed by identity; a later node wins, as a Go map assignment does. */
  function NodeMap(nodes: seq<Node>): map<Id, Node> {
    if nodes == [] then map[]
    else NodeMap(nodes[..|nodes| - 1])[nodes[|nodes| - 1].id := nodes[|nodes| - 1]]
  }

  ghost predicate UniqueIds(nodes: seq<Node>) {
    forall i, j :: 0 <= i < j < |nodes| ==> nodes[i].id != nodes[j].id
  }

  ghost predicate NoRepeats(ids: seq<Id>) {
    forall i, j :: 0 <= i < j < |ids| ==> ids[i] != ids[j]
  }

  lemma {:induction false} NodeMapKeys(nodes: seq<Node>)
    ensures forall id :: id in NodeMap(nodes) <==> exists i :: 0 <= i < |nodes| && nodes[i].id == id
  {
    if nodes != [] {
      var last := |nodes| - 1;
      NodeMapKeys(nodes[..last]);
      assert nodes == nodes[..last] + [nodes[last]];
      forall id ensures id in NodeMap(nodes) <==> exists i :: 0 <= i < |nodes| && nodes[i].id == id {
        if id in NodeMap(nodes) && id != nodes[last].id {
          assert id in NodeMap(nodes[..last]);
          var i :| 0 <= i < last && nodes[..last][i].id == id;
          assert nodes[i].id == id;
        }
        if i :| 0 <= i < |nodes| && nodes[i].id == id {
          if i < last { assert nodes[..last][i].id == id; }
        }
      }
    }
  }

  /** With unique identities every node is found under its own identity. */
  lemma {:induction false} NodeMapFinds(nodes: seq<Node>, i: nat)
    requires UniqueIds(nodes) && i < |nodes|
    ensures nodes[i].id in NodeMap(nodes) && NodeMap(nodes)[nodes[i].id] == nodes[i]
  {
    var last := |nodes| - 1;
    if i < last {
      assert nodes[..last][i] == nodes[i];
      NodeMapFinds(nodes[..last], i);
    }
  }

  lemma {:induction false} NodeMapEntry(nodes: seq<Node>, id: Id) returns (i: nat)
    requires UniqueIds(nodes) && id in NodeMap(nodes)
    ensures i < |nodes| && nodes[i].id == id && NodeMap(nodes)[id] == nodes[i]
  {
    NodeMapKeys(nodes);
    i :| i < |nodes| && nodes[i].id == id;
    NodeMapFinds(nodes, i);
  }
}
