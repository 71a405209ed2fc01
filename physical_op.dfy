/** Physical plan nodes and the derivation of their output schema
    (`InitSchema`): each node kind fills its output schema and appends to its
    output name-schema list from its producers by a rule of its own. */
module PhysicalOp {
  import opened Catalog

  /** The runtime class of a plan node. */
  datatype OpKind =
    | TableProvider | RequestProvider | PartitionProvider
    | Group | Sort | Limit | Rename | Filter
    | RowProject | TableProject | GroupAggregation | WindowAggregation
    | Join | RequestJoin
    | Union | RequestUnion

  /** The node classes a `CastFrom` narrows to. */
  datatype CastTarget =
    | DataProviderNode | GroupNode | ProjectNode | RowProjectNode
    | TableProjectNode | WindowAggregationNode | JoinNode

  /** The three providers derive from the data provider class; the row, table,
      group-aggregation and window-aggregation projections derive from the
      project class; every other class has no subclass. */
  predicate IsA(kind: OpKind, target: CastTarget)
  {
    match target
    case DataProviderNode => kind.TableProvider? || kind.RequestProvider? || kind.PartitionProvider?
    case GroupNode => kind.Group?
    case ProjectNode => kind.RowProject? || kind.TableProject? || kind.GroupAggregation? || kind.WindowAggregation?
    case RowProjectNode => kind.RowProject?
    case TableProjectNode => kind.TableProject?
    case WindowAggregationNode => kind.WindowAggregation?
    case JoinNode => kind.Join?
  }

  predicate IsUnaryPassThrough(kind: OpKind) { kind.Group? || kind.Sort? || kind.Limit? || kind.Rename? || kind.Filter? }
  predicate IsJoin(kind: OpKind) { kind.Join? || kind.RequestJoin? }
  predicate IsUnion(kind: OpKind) { kind.Union? || kind.RequestUnion? }

  /** The checked downcast: the same node when its runtime class is the target
      class or derives from it, null otherwise (a null node casts to null). */
  function CastFrom(node: Node?, target: CastTarget): (r: Node?)
    ensures r != null ==> r == node && IsA(node.kind, target)
    ensures node != null && IsA(node.kind, target) ==> r == node
  {
    if node != null && IsA(node.kind, target) then node else null
  }

  /** The two fields schema derivation writes, as a value. */
  datatype NodeState = NodeState(outputSchema: Schema, nameSchemaList: seq<NamedSchema>)

  /** Copy the producer's output schema and append its name-schema list. */
  function PassThrough(own: NodeState, producer: NodeState): NodeState
  {
    NodeState(producer.outputSchema, own.nameSchemaList + producer.nameSchemaList)
  }

  /** Schema derivation on values: the state a node of `kind` reaches from
      `own` given the states of its producers (None for a null producer) and
      its table handler (None for a null handler), or None when derivation
      fails. Union and RequestUnion read their first producer unguarded, so it
      must be present. */
  function DeriveSchema(kind: OpKind, producers: seq<Option<NodeState>>, own: NodeState,
                        handler: Option<TableHandler>): (r: Option<NodeState>)
    requires IsUnion(kind) ==> |producers| > 0 && producers[0].Some?
    ensures r.Some? ==> own.nameSchemaList <= r.value.nameSchemaList
    ensures kind.WindowAggregation? ==> r.None?
    ensures IsUnion(kind) || (IsA(kind, ProjectNode) && !kind.WindowAggregation?) ==> r.Some?
  {
    match kind
    case TableProvider | RequestProvider | PartitionProvider =>
      if handler.Some? && handler.value.schema.Some? then
        var schema := handler.value.schema.value;
        Some(NodeState(schema, own.nameSchemaList + [NamedSchema(handler.value.name, schema)]))
      else None
    case Group | Sort | Limit | Rename | Filter =>
      if |producers| > 0 && producers[0].Some? then Some(PassThrough(own, producers[0].value)) else None
    case RowProject | TableProject | GroupAggregation =>
      Some(NodeState(own.outputSchema, own.nameSchemaList + [NamedSchema("", own.outputSchema)]))
    case WindowAggregation => None
    case Join | RequestJoin =>
      if |producers| == 2 && producers[0].Some? && producers[1].Some? then
        var left, right := producers[0].value, producers[1].value;
        Some(NodeState(left.outputSchema + right.outputSchema,
                       own.nameSchemaList + left.nameSchemaList + right.nameSchemaList))
      else None
    case Union | RequestUnion => Some(PassThrough(own, producers[0].value))
  }

  /** A node state whose name-schema list accounts for its output columns:
      the schemas of the list, in order, are exactly the output schema. */
  predicate Provenanced(s: NodeState)
  {
    Flatten(s.nameSchemaList) == s.outputSchema
  }

  /** A first derivation (from an empty name-schema list) over producers whose
      lists account for their columns yields a list that accounts for the
      node's columns: join concatenates both sides, the others take one. */
  lemma DeriveKeepsProvenance(kind: OpKind, producers: seq<Option<NodeState>>, own: NodeState,
                              handler: Option<TableHandler>)
    requires IsUnion(kind) ==> |producers| > 0 && producers[0].Some?
    requires own.nameSchemaList == []
    requires forall i :: 0 <= i < |producers| && producers[i].Some? ==> Provenanced(producers[i].value)
    requires DeriveSchema(kind, producers, own, handler).Some?
    ensures Provenanced(DeriveSchema(kind, producers, own, handler).value)
  {
    var r := DeriveSchema(kind, producers, own, handler).value;
    if IsJoin(kind) {
      var left, right := producers[0].value, producers[1].value;
      assert r.nameSchemaList == left.nameSchemaList + right.nameSchemaList;
      FlattenAppend(left.nameSchemaList, right.nameSchemaList);
    } else if !IsUnaryPassThrough(kind) && !IsUnion(kind) {
      assert |r.nameSchemaList| == 1;
      assert r.nameSchemaList[1..] == [];
    } else {
      assert r.nameSchemaList == producers[0].value.nameSchemaList;
    }
  }

  /** Deriving again after a success recomputes the same output schema but
      appends the same entries to the name-schema list a second time. */
  lemma RederiveDuplicatesEntries(kind: OpKind, producers: seq<Option<NodeState>>, own: NodeState,
                                  handler: Option<TableHandler>)
    requires IsUnion(kind) ==> |producers| > 0 && producers[0].Some?
    requires DeriveSchema(kind, producers, own, handler).Some?
    ensures var first := DeriveSchema(kind, producers, own, handler).value;
            var added := first.nameSchemaList[|own.nameSchemaList|..];
            DeriveSchema(kind, producers, first, handler)
              == Some(NodeState(first.outputSchema, first.nameSchemaList + added))
  {
    var first := DeriveSchema(kind, producers, own, handler).value;
    var added := first.nameSchemaList[|own.nameSchemaList|..];
    assert first.nameSchemaList == own.nameSchemaList + added;
    if IsJoin(kind) {
      var left, right := producers[0].value, producers[1].value;
      assert added == left.nameSchemaList + right.nameSchemaList;
      assert first.nameSchemaList + left.nameSchemaList + right.nameSchemaList
          == first.nameSchemaList + added;
    }
  }

  /** So derivation is not idempotent: a node derived twice from an empty list
      lists every producer relation twice, and its name-schema list no longer
      accounts for its output columns unless it has none. */
  lemma RederiveBreaksProvenance(kind: OpKind, producers: seq<Option<NodeState>>, own: NodeState,
                                 handler: Option<TableHandler>)
    requires IsUnion(kind) ==> |producers| > 0 && producers[0].Some?
    requires own.nameSchemaList == []
    requires forall i :: 0 <= i < |producers| && producers[i].Some? ==> Provenanced(producers[i].value)
    requires DeriveSchema(kind, producers, own, handler).Some?
    ensures var first := DeriveSchema(kind, producers, own, handler).value;
            var second := DeriveSchema(kind, producers, first, handler);
            second.Some? && second.value.outputSchema == first.outputSchema &&
            Flatten(second.value.nameSchemaList) == first.outputSchema + first.outputSchema
  {
    var first := DeriveSchema(kind, producers, own, handler).value;
    DeriveKeepsProvenance(kind, producers, own, handler);
    RederiveDuplicatesEntries(kind, producers, own, handler);
    assert first.nameSchemaList[|own.nameSchemaList|..] == first.nameSchemaList;
    FlattenAppend(first.nameSchemaList, first.nameSchemaList);
  }

  /** The states of a producer list, None for a null producer. */
  function StatesOf(ps: seq<Node?>): (r: seq<Option<NodeState>>)
    reads ps
    ensures |r| == |ps|
    ensures forall i :: 0 <= i < |ps| ==> r[i] == if ps[i] == null then None else Some(ps[i].State())
  {
    if ps == [] then []
    else [if ps[0] == null then None else Some(ps[0].State())] + StatesOf(ps[1..])
  }

  /** A physical plan node. Which fields matter depends on `kind`: providers
      read `tableHandler`, the others their `producers`. A projection's
      `outputSchema` is set when it is built, from its projection list. */
  class Node {
    const kind: OpKind
    const tableHandler: Option<TableHandler>
    var producers: seq<Node?>
    var outputSchema: Schema
    var nameSchemaList: seq<NamedSchema>
    var limitCnt: int

    constructor (kind: OpKind, producers: seq<Node?>, tableHandler: Option<TableHandler>, outputSchema: Schema)
      ensures this.kind == kind && this.producers == producers && this.tableHandler == tableHandler
      ensures this.outputSchema == outputSchema && nameSchemaList == [] && limitCnt == 0
      ensures this !in producers
    {
      this.kind := kind;
      this.producers := producers;
      this.tableHandler := tableHandler;
      this.outputSchema := outputSchema;
      nameSchemaList := [];
      limitCnt := 0;
    }

    function State(): NodeState
      reads this
    {
      NodeState(outputSchema, nameSchemaList)
    }

    /** Replace producer `i`; nothing else changes. */
    method UpdateProducer(i: int, producer: Node?)
      requires 0 <= i < |producers|
      modifies this`producers
      ensures producers == old(producers)[i := producer]
    {
      producers := producers[i := producer];
    }

    /** Push the entries of `src` one by one onto the name-schema list. */
    method AppendNameSchemas(src: seq<NamedSchema>)
      modifies this`nameSchemaList
      ensures nameSchemaList == old(nameSchemaList) + src
    {
      for i := 0 to |src|
        invariant nameSchemaList == old(nameSchemaList) + src[..i]
      {
        nameSchemaList := nameSchemaList + [src[i]];
      }
      assert src[..|src|] == src;
    }

    /** Unary rule: fails without change when there is no first producer or
        it is null; otherwise copies its output schema and appends its
        name-schema list after the entries already there. */
    method InitUnarySchema() returns (ok: bool)
      requires this !in producers
      modifies this`outputSchema, this`nameSchemaList
      ensures ok <==> |producers| > 0 && producers[0] != null
      ensures !ok ==> outputSchema == old(outputSchema) && nameSchemaList == old(nameSchemaList)
      ensures ok ==> outputSchema == producers[0].outputSchema
                     && nameSchemaList == old(nameSchemaList) + producers[0].nameSchemaList
    {
      if |producers| == 0 || producers[0] == null {
        return false;
      }
      var producer := producers[0];
      outputSchema := producer.outputSchema;
      AppendNameSchemas(producer.nameSchemaList);
      ok := true;
    }

    /** Project rule: always succeeds, keeps the output schema and appends one
        anonymous entry holding it. */
    method InitProjectSchema() returns (ok: bool)
      modifies this`nameSchemaList
      ensures ok
      ensures nameSchemaList == old(nameSchemaList) + [NamedSchema("", outputSchema)]
    {
      nameSchemaList := nameSchemaList + [NamedSchema("", outputSchema)];
      ok := true;
    }

    /** Window aggregation has no rule yet: it always fails and changes nothing. */
    method InitWindowAggregationSchema() returns (ok: bool)
      ensures !ok
    {
      ok := false;
    }

    /** Join rule (Join and RequestJoin): fails without change unless there are
        exactly two non-null producers; otherwise the output schema is the
        left one followed by the right one, and the name-schema list gains the
        left entries and then the right ones. */
    method InitJoinSchema() returns (ok: bool)
      requires this !in producers
      modifies this`outputSchema, this`nameSchemaList
      ensures ok <==> |producers| == 2 && producers[0] != null && producers[1] != null
      ensures !ok ==> outputSchema == old(outputSchema) && nameSchemaList == old(nameSchemaList)
      ensures ok ==> outputSchema == producers[0].outputSchema + producers[1].outputSchema
                     && nameSchemaList == old(nameSchemaList) + producers[0].nameSchemaList
                                                              + producers[1].nameSchemaList
    {
      if |producers| != 2 || producers[0] == null || producers[1] == null {
        return false;
      }
      var left, right := producers[0], producers[1];
      outputSchema := left.outputSchema;
      outputSchema := outputSchema + right.outputSchema;
      AppendNameSchemas(left.nameSchemaList);
      AppendNameSchemas(right.nameSchemaList);
      ok := true;
    }

    /** Data provider rule: fails without change when the table handler or its
        schema is null; otherwise the output schema is the table's and one
        (table name, table schema) entry is appended. */
    method InitDataProviderSchema() returns (ok: bool)
      modifies this`outputSchema, this`nameSchemaList
      ensures ok <==> tableHandler.Some? && tableHandler.value.schema.Some?
      ensures !ok ==> outputSchema == old(outputSchema) && nameSchemaList == old(nameSchemaList)
      ensures ok ==> outputSchema == tableHandler.value.schema.value
                     && nameSchemaList == old(nameSchemaList)
                                          + [NamedSchema(tableHandler.value.name, tableHandler.value.schema.value)]
    {
      if tableHandler.Some? {
        var schema := tableHandler.value.schema;
        if schema.Some? {
          outputSchema := schema.value;
          nameSchemaList := nameSchemaList + [NamedSchema(tableHandler.value.name, schema.value)];
          ok := true;
        } else {
          ok := false;
        }
      } else {
        ok := false;
      }
    }

    /** Union rule (Union and RequestUnion): copies the first producer, which
        is read without a check; the other producers are not looked at. */
    method InitUnionSchema() returns (ok: bool)
      requires |producers| > 0 && producers[0] != null && producers[0] != this
      modifies this`outputSchema, this`nameSchemaList
      ensures ok
      ensures outputSchema == producers[0].outputSchema
      ensures nameSchemaList == old(nameSchemaList) + producers[0].nameSchemaList
    {
      var producer := producers[0];
      outputSchema := producer.outputSchema;
      AppendNameSchemas(producer.nameSchemaList);
      ok := true;
    }

    /** Schema derivation as dispatched on the node's class: the outcome and
        the new state are those of `DeriveSchema`, and a failure changes
        nothing. */
    method InitSchema() returns (ok: bool)
      requires this !in producers
      requires IsUnion(kind) ==> |producers| > 0 && producers[0] != null
      modifies this`outputSchema, this`nameSchemaList
      ensures var d := DeriveSchema(kind, old(StatesOf(producers)), old(State()), tableHandler);
              ok == d.Some? && State() == if ok then d.value else old(State())
    {
      match kind
      case TableProvider | RequestProvider | PartitionProvider =>
        ok := InitDataProviderSchema();
      case Group | Sort | Limit | Rename | Filter =>
        ok := InitUnarySchema();
      case RowProject | TableProject | GroupAggregation =>
        ok := InitProjectSchema();
      case WindowAggregation =>
        ok := InitWindowAggregationSchema();
      case Join | RequestJoin =>
        ok := InitJoinSchema();
      case Union | RequestUnion =>
        ok := InitUnionSchema();
    }
  }
}
