# Schema derivation for physical plan nodes, and the schemas context

This project models two parts of the physical query plan layer of the FESQL
engine (`src/vm`):

- **Schema derivation** (`InitSchema`, in `physical_op.dfy`). Every physical plan node fills two
  fields from its producers (its input nodes) by a rule of its own:
  - `outputSchema`: the ordered columns it produces;
  - `nameSchemaList`: which relation each group of those columns comes from.

  A node is a Dafny class with these fields plus a constant `kind`, its
  `producers`, its optional table handler and `limitCnt`. Each C++
  `InitSchema` override is a method returning `bool` that changes only the two
  fields. `InitSchema` dispatches on the node's class, as the virtual call does.
  It is proved against `DeriveSchema`, the same rules written as a function
  on values. Three lemmas are proved about `DeriveSchema`:
  - a first derivation keeps the name-schema list in step with the output schema;
  - a second derivation appends the same entries again;
  - after that second derivation the list covers the output schema twice over.
- **The schemas context** (`schema_context.dfy`). An expression binder builds
  this index from an ordered list of (table name, schema) pairs. It holds:
  - the list of `RowSchemaInfo` relations;
  - a map from column name to the ids of the relations that have that column;
  - a map from table name to one relation id.

  The constructor fills these three fields in loops. Each loop is proved equal
  to a recursive function of the input: `RowInfos`, `ColumnIndex` or
  `TableIndex`. Lemmas state what those functions mean. The four const
  resolution members are functions that read the built context.

`catalog.dfy` holds the value types: columns, schemas, name-schema entries and
table handlers. `scenarios.dfy` holds client methods that derive a small plan
and resolve columns over small contexts, one with a repeated table name, using
only the contracts.

Modelling choices read off the code:

- Derivation is not idempotent. `output_schema_` is replaced, but each
  successful call appends to `output_name_schema_list_`
  (`src/vm/physical_op.cc:48-50`). Calling it twice lists every relation
  twice. `RederiveDuplicatesEntries` and `RederiveBreaksProvenance` state this.
- No rule checks that a producer has already derived its schema. The code
  only tests producers for null, so a producer with no schema yet simply
  contributes empty data.
- GroupAggregation uses the Project rule, not the pass-through rule. It
  carries a `project_type_` (`src/vm/physical_op.cc:142`), as WindowAggregation
  does (`src/vm/physical_op.cc:155`). Both are modelled as subclasses of the
  project node. GroupAggregation has no `InitSchema` of its own, so it inherits
  the Project rule. WindowAggregation overrides that rule and always fails.
- Union and RequestUnion read their first producer without any check. Their
  methods therefore require that producer to exist.
- The derivation methods that read producers (`InitUnarySchema`,
  `InitJoinSchema`, `InitUnionSchema` and the dispatcher `InitSchema`) require
  that a node is not its own producer. The plan is a tree, whose nodes are
  built bottom-up from producers that already exist, so no node can be among
  its own producers.

## Model

| member | source | states |
|---|---|---|
| `Catalog.FlattenAppend` | src/vm/physical_op.cc:188-195 | The columns of a name-schema list made of two lists are the columns of the first followed by those of the second. Join relies on this when it concatenates both sides. |
| `PhysicalOp.CastFrom` | src/vm/physical_op.cc:121-137 | The checked downcast returns the same node exactly when the node's class is the target class or derives from it, and null otherwise. The same function serves the group (100-102), join (199-201) and data provider (241-244) variants. |
| `PhysicalOp.DeriveSchema` | src/vm/physical_op.cc:42-359 | Derivation on values. A success keeps every entry already in the name-schema list as a prefix. WindowAggregation always fails. Union, RequestUnion and the non-window projections always succeed. |
| `PhysicalOp.DeriveKeepsProvenance` | src/vm/physical_op.cc:181-198 | Start from an empty list, with each present producer's list covering exactly its output schema. Then a successful derivation yields a list whose schemas, concatenated in order, are exactly the node's output schema. This holds for joins (left then right), pass-throughs, providers and projections. |
| `PhysicalOp.RederiveDuplicatesEntries` | src/vm/physical_op.cc:47-50 | Deriving again after a success gives the same output schema. It appends the entries of the first derivation a second time: the name list is appended to, not replaced. |
| `PhysicalOp.RederiveBreaksProvenance` | src/vm/physical_op.cc:42-53 | Start from an empty list and derive twice. The second derivation succeeds with the same output schema, and the list's schemas then concatenate to that schema twice over. Derivation is therefore not idempotent. |
| `PhysicalOp.Node.UpdateProducer` | src/vm/physical_op.cc:22-24 | Only producer slot `i` is replaced. The index must be in range, and no other field changes. |
| `PhysicalOp.Node.AppendNameSchemas` | src/vm/physical_op.cc:48-50 | The range-for `push_back` loop: the name-schema list becomes its old value followed by the source entries in order. |
| `PhysicalOp.Node.InitUnarySchema` | src/vm/physical_op.cc:42-53 | Returns false, changing nothing, exactly when there is no first producer or it is null. Otherwise the output schema equals the producer's, and the producer's name list is appended after the existing entries. |
| `PhysicalOp.Node.InitProjectSchema` | src/vm/physical_op.cc:115-119 | Always returns true. The output schema is unchanged, and exactly one entry `("", own output schema)` is appended. |
| `PhysicalOp.Node.InitWindowAggregationSchema` | src/vm/physical_op.cc:164-167 | Always returns false and changes nothing. |
| `PhysicalOp.Node.InitJoinSchema` | src/vm/physical_op.cc:181-198 | Returns false, changing nothing, unless there are exactly two non-null producers. Otherwise the output schema is left followed by right, and the list gains the left entries and then the right ones. |
| `PhysicalOp.Node.InitDataProviderSchema` | src/vm/physical_op.cc:250-267 | Returns false, changing nothing, exactly when the table handler is null or its schema is null. Otherwise the output schema is the table schema, and exactly one `(table name, table schema)` entry is appended. |
| `PhysicalOp.Node.InitUnionSchema` | src/vm/physical_op.cc:292-299 | Always returns true. It copies only the first producer, which must exist: its output schema is taken and its name list appended. RequestUnion (320-327) uses this rule too. |
| `PhysicalOp.Node.InitSchema` | src/vm/physical_op.cc:320-359 | Dispatches on the node's class. RequestUnion and RequestJoin go to the union and join rules. The result and the new state are those of `DeriveSchema` on the old state, and a failure leaves both fields unchanged. |
| `SchemaContext.RowInfosAt` | src/vm/schema.h:20-24 | The built relation list has one `RowSchemaInfo` per input entry. Entry `i` records position `i`, the entry's table name and its schema. |
| `SchemaContext.AddColumnIdsLookup` | src/vm/schema.h:45-46 | Adding one relation's columns appends its id to a column name's id list once per column of that name, after the ids already there. |
| `SchemaContext.ColumnIdsExact` | src/vm/schema.h:45-46 | An id is listed under a column name if and only if it is a valid relation position whose schema has a column of that name. One name can therefore belong to several relations. |
| `SchemaContext.ColumnIdsOrdered` | src/vm/schema.h:45-46 | The ids listed for a column name come in relation order. |
| `SchemaContext.ColumnIdsSingleRelation` | src/vm/schema.h:45-46 | When only relation `i` has a column name, the ids for that name are `i`, repeated once per such column. |
| `SchemaContext.TableIndexLast` | src/vm/schema.h:47-48 | A table name is indexed if and only if some relation has it. It then maps to a single id: the last relation with that name. |
| `SchemaContext.SchemasContext.constructor` | src/vm/schema.h:27-29 | Built from the ordered list, the three fields equal `RowInfos`, `ColumnIndex` and `TableIndex` of that list. |
| `SchemaContext.SchemasContext.AllRefResolved` | src/vm/schema.h:36-37 | Succeeds if and only if some relation has the table name. The result is an existing entry of the relation list with that name, the last one. |
| `SchemaContext.SchemasContext.ColumnRefResolved` | src/vm/schema.h:38-40 | Any success is an existing entry that has the column. A qualified reference resolves only to a relation of that name. An unqualified one resolves only to the single relation having the column. A column in no relation fails. A qualified reference resolves to the last relation of that name when it has the column, and fails otherwise. An unqualified column that only one relation has, once, resolves to it. |
| `SchemaContext.SchemasContext.ExprRefResolved` | src/vm/schema.h:33-34 | A column reference resolves exactly as `ColumnRefResolved` resolves its (relation name, column name) pair; any other expression fails. A success is an existing entry that has the referenced column. |
| `SchemaContext.SchemasContext.ExprListResolved` | src/vm/schema.h:31-32 | Succeeds only for a non-empty list whose every expression resolves to that same relation. Conversely, a non-empty list whose expressions all resolve to one relation resolves to it. |

All resolution members are functions, so they cannot change the context.
They report either an existing `RowSchemaInfo` or nothing, like the C++ bool
and out-pointer.

## Left out

- Printing: `Print`, `PrintChildren` and `PrintSchema` write to `ostream` or debug logs through external name functions. `LOG(WARNING)` calls are no-ops here.
- Aliasing of name-schema entries: the C++ entries hold schema pointers, and the model holds schema values. A Project's entry holds the value of its output schema at the time of the call, not a reference to that field.
- Protobuf internals: `CopyFrom` is modelled as replacement and `MergeFrom` as appending.
- Node construction and kind-specific payloads (group keys, join conditions, window, sort and filter specs, index names): `src/vm/physical_op.h` is not part of this model. The Dafny constructor only sets the fields derivation reads. A projection's output schema, computed by the planner, is passed in.
- `limitCnt` is carried but never read: derivation does not use it.
- The expression AST: an expression is either a column reference (relation name, column name) or opaque.
- `SchemaContext.SchemasContext.ExprRefResolved`: an opaque expression fails to resolve. How `SchemasContext::ExprRefResolved` in the C++ code resolves expression kinds other than column references is not part of this model.
- `SchemaContext.SchemasContext.ColumnRefResolved`: the contract does not fix the outcome of an unqualified reference whose only owning relation has several columns of that name. The body treats such a reference as ambiguous.
- The bodies of the `SchemasContext` constructor and resolution members: `src/vm/schema.cc` is not part of this model. The field comments at `src/vm/schema.h:43-48` give only the shape of each field. The constructor fills them in one pass over the entries: it appends the relation, records its id under each column name, then points its table name at it, so a later relation with the same name wins. The resolution bodies are one choice that meets the contracts.
- Relation ids are `uint32_t` in the source and unbounded `nat` here. Contexts with more than 2^32 relations are not modelled.
- The base `InitSchema` of the binary node class is not shown: every binary kind modelled (Join, RequestJoin, Union, RequestUnion) overrides it.
