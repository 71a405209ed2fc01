/** Value types the plan layer works on: column definitions, schemas, the
    (relation name, schema) entries of a node's output name-schema list, and the
    table handler a data provider reads its schema from. */
module Catalog {

  datatype Option<T> = None | Some(value: T)

  /** One column of a schema: its name and its type code (the value of the
      column type enumeration). */
  datatype ColumnDef = ColumnDef(name: string, columnType: nat)

  /** An ordered sequence of columns; names need not be unique. */
  type Schema = seq<ColumnDef>

  /** One entry of a node's output name-schema list: the relation a group of
      output columns comes from ("" for an anonymous derived relation) and the
      schema of that relation. */
  datatype NamedSchema = NamedSchema(relationName: string, schema: Schema)

  /** What a data provider sees of its table handler: a name, and a schema
      that may be missing (a null schema pointer). */
  datatype TableHandler = TableHandler(name: string, schema: Option<Schema>)

  predicate HasColumn(schema: Schema, name: string)
  {
    exists k :: 0 <= k < |schema| && schema[k].name == name
  }

  /** The columns of every relation of a name-schema list, relation after
      relation in list order. */
  function Flatten(list: seq<NamedSchema>): Schema
  {
    if list == [] then [] else list[0].schema + Flatten(list[1..])
  }

  /** Flattening distributes over concatenation of name-schema lists. */
  lemma {:induction false} FlattenAppend(a: seq<NamedSchema>, b: seq<NamedSchema>)
    ensures Flatten(a + b) == Flatten(a) + Flatten(b)
  {
    if a != [] {
      assert (a + b)[1..] == a[1..] + b;
      FlattenAppend(a[1..], b);
    } else {
      assert a + b == b;
    }
  }
}
