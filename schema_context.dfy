/** The resolution index an expression binder builds from a name-schema list:
    the list of relations it holds, which relations have a column of a given
    name, and which relation a table name stands for. */
module SchemaContext {
  import opened Catalog

  /** One relation of a context: its position in the list the context was
      built from, its table name and its schema. Never changed once built. */
  datatype RowSchemaInfo = RowSchemaInfo(idx: nat, tableName: string, schema: Schema)

  /** A reference an expression makes to its input: a column reference with
      its relation name ("" when unqualified) and column name; every other
      expression kind is opaque here. */
  datatype Expr = ColumnRefExpr(relationName: string, columnName: string) | OtherExpr

  /** The relations of a context built from `list`, one per entry, appended in
      list order. */
  function RowInfos(list: seq<NamedSchema>): seq<RowSchemaInfo>
    decreases |list|
  {
    if list == [] then []
    else
      var n := |list| - 1;
      RowInfos(list[..n]) + [RowSchemaInfo(n, list[n].relationName, list[n].schema)]
  }

  /** The ids recorded for a column name; none when the name was never seen. */
  function IdsOf(m: map<string, seq<nat>>, name: string): seq<nat>
  {
    if name in m then m[name] else []
  }

  /** Record `id` once for every column of `columns`, in column order. */
  function AddColumnIds(m: map<string, seq<nat>>, id: nat, columns: Schema): map<string, seq<nat>>
    decreases |columns|
  {
    if columns == [] then m
    else AddColumnIds(m[columns[0].name := IdsOf(m, columns[0].name) + [id]], id, columns[1..])
  }

  /** Column name to context ids, as built entry by entry from `list`. */
  function ColumnIndex(list: seq<NamedSchema>): map<string, seq<nat>>
    decreases |list|
  {
    if list == [] then map[]
    else
      var n := |list| - 1;
      AddColumnIds(ColumnIndex(list[..n]), n, list[n].schema)
  }

  /** Table name to context id, as built entry by entry from `list`: a later
      entry with the same name overwrites an earlier one. */
  function TableIndex(list: seq<NamedSchema>): map<string, nat>
    decreases |list|
  {
    if list == [] then map[]
    else
      var n := |list| - 1;
      TableIndex(list[..n])[list[n].relationName := n]
  }

  /** The number of columns of `schema` named `name`. */
  function Occurrences(schema: Schema, name: string): nat
  {
    if schema == [] then 0
    else (if schema[0].name == name then 1 else 0) + Occurrences(schema[1..], name)
  }

  function Repeat(id: nat, count: nat): (r: seq<nat>)
    ensures |r| == count && forall k :: 0 <= k < count ==> r[k] == id
  {
    if count == 0 then [] else [id] + Repeat(id, count - 1)
  }

  /** Entry `i` of the built relation list is entry `i` of the input, tagged
      with its own position. */
  lemma {:induction false} RowInfosAt(list: seq<NamedSchema>)
    ensures |RowInfos(list)| == |list|
    ensures forall i :: 0 <= i < |list| ==>
              RowInfos(list)[i] == RowSchemaInfo(i, list[i].relationName, list[i].schema)
  {
    if list != [] {
      var n := |list| - 1;
      RowInfosAt(list[..n]);
    }
  }

  /** A column name occurs in a schema exactly when it has a positive count. */
  lemma {:induction false} OccurrencesPositive(schema: Schema, name: string)
    ensures Occurrences(schema, name) > 0 <==> HasColumn(schema, name)
  {
    if schema != [] {
      OccurrencesPositive(schema[1..], name);
      if HasColumn(schema, name) && schema[0].name != name {
        var k :| 0 <= k < |schema| && schema[k].name == name;
        assert schema[1..][k - 1].name == name;
      }
      if HasColumn(schema[1..], name) {
        var k :| 0 <= k < |schema[1..]| && schema[1..][k].name == name;
        assert schema[k + 1].name == name;
      }
    }
  }

  /** Adding a relation's columns appends its id once per column of that name
      to that name's ids, after the ids already there. */
  lemma {:induction false} AddColumnIdsLookup(m: map<string, seq<nat>>, id: nat, columns: Schema, name: string)
    decreases |columns|
    ensures IdsOf(AddColumnIds(m, id, columns), name) == IdsOf(m, name) + Repeat(id, Occurrences(columns, name))
  {
    if columns != [] {
      var m' := m[columns[0].name := IdsOf(m, columns[0].name) + [id]];
      AddColumnIdsLookup(m', id, columns[1..], name);
      var rest := Repeat(id, Occurrences(columns[1..], name));
      if columns[0].name == name {
        assert Repeat(id, Occurrences(columns, name)) == [id] + rest;
        assert IdsOf(m, name) + [id] + rest == IdsOf(m, name) + ([id] + rest);
      }
    }
  }

  /** The ids listed for a column name are exactly the positions of the
      relations that have a column of that name. */
  lemma {:induction false} ColumnIdsExact(list: seq<NamedSchema>, name: string)
    ensures forall i: nat :: i in IdsOf(ColumnIndex(list), name) <==> i < |list| && HasColumn(list[i].schema, name)
  {
    if list != [] {
      var n := |list| - 1;
      var prefix := list[..n];
      ColumnIdsExact(prefix, name);
      AddColumnIdsLookup(ColumnIndex(prefix), n, list[n].schema, name);
      OccurrencesPositive(list[n].schema, name);
      forall i: nat | i < n
        ensures HasColumn(prefix[i].schema, name) <==> HasColumn(list[i].schema, name)
      {
        assert prefix[i] == list[i];
      }
    }
  }

  /** The ids listed for a column name come in relation order. */
  lemma {:induction false} ColumnIdsOrdered(list: seq<NamedSchema>, name: string)
    ensures forall a, b :: 0 <= a < b < |IdsOf(ColumnIndex(list), name)| ==>
              IdsOf(ColumnIndex(list), name)[a] <= IdsOf(ColumnIndex(list), name)[b]
  {
    if list != [] {
      var n := |list| - 1;
      var prefix := list[..n];
      ColumnIdsOrdered(prefix, name);
      ColumnIdsExact(prefix, name);
      AddColumnIdsLookup(ColumnIndex(prefix), n, list[n].schema, name);
      var old_ids := IdsOf(ColumnIndex(prefix), name);
      assert forall a :: 0 <= a < |old_ids| ==> old_ids[a] in old_ids;
    }
  }

  /** No relation has a column of that name: no ids are listed for it. */
  lemma {:induction false} ColumnIdsNone(list: seq<NamedSchema>, name: string)
    requires forall j :: 0 <= j < |list| ==> !HasColumn(list[j].schema, name)
    ensures IdsOf(ColumnIndex(list), name) == []
  {
    if list != [] {
      var n := |list| - 1;
      var prefix := list[..n];
      AddColumnIdsLookup(ColumnIndex(prefix), n, list[n].schema, name);
      OccurrencesPositive(list[n].schema, name);
      forall j | 0 <= j < |prefix|
        ensures !HasColumn(prefix[j].schema, name)
      {
        assert prefix[j] == list[j];
      }
      ColumnIdsNone(prefix, name);
    }
  }

  /** When only relation `i` has a column of that name, the ids listed for the
      name are `i`, once per such column of relation `i`. */
  lemma {:induction false} ColumnIdsSingleRelation(list: seq<NamedSchema>, name: string, i: nat)
    requires i < |list|
    requires forall j :: 0 <= j < |list| && j != i ==> !HasColumn(list[j].schema, name)
    ensures IdsOf(ColumnIndex(list), name) == Repeat(i, Occurrences(list[i].schema, name))
  {
    var n := |list| - 1;
    var prefix := list[..n];
    AddColumnIdsLookup(ColumnIndex(prefix), n, list[n].schema, name);
    if n == i {
      forall j | 0 <= j < |prefix|
        ensures !HasColumn(prefix[j].schema, name)
      {
        assert prefix[j] == list[j];
      }
      ColumnIdsNone(prefix, name);
    } else {
      OccurrencesPositive(list[n].schema, name);
      forall j | 0 <= j < |prefix| && j != i
        ensures !HasColumn(prefix[j].schema, name)
      {
        assert prefix[j] == list[j];
      }
      ColumnIdsSingleRelation(prefix, name, i);
      assert prefix[i] == list[i];
    }
  }

  /** A table name is indexed exactly when some relation has it, and it then
      stands for the last such relation. */
  lemma {:induction false} TableIndexLast(list: seq<NamedSchema>, name: string)
    ensures name in TableIndex(list) <==> exists i :: 0 <= i < |list| && list[i].relationName == name
    ensures name in TableIndex(list) ==>
              var t := TableIndex(list)[name];
              t < |list| && list[t].relationName == name &&
              forall j :: t < j < |list| ==> list[j].relationName != name
  {
    if list != [] {
      var n := |list| - 1;
      var prefix := list[..n];
      TableIndexLast(prefix, name);
      if list[n].relationName != name {
        if exists i :: 0 <= i < |list| && list[i].relationName == name {
          var i :| 0 <= i < |list| && list[i].relationName == name;
          assert prefix[i].relationName == name;
        }
        if name in TableIndex(prefix) {
          var t := TableIndex(prefix)[name];
          assert list[t] == prefix[t];
        }
      }
    }
  }

  /** The index an expression binder resolves references against. Its three
      tables are built once, from an ordered list of (table name, schema)
      pairs, and only read afterwards. */
  class SchemasContext {
    var rowSchemaInfoList: seq<RowSchemaInfo>
    var colContextIdMap: map<string, seq<nat>>
    var tableContextIdMap: map<string, nat>
    /** The list the context was built from. */
    ghost const tableSchemaList: seq<NamedSchema>

    ghost predicate Valid()
      reads this
    {
      && rowSchemaInfoList == RowInfos(tableSchemaList)
      && colContextIdMap == ColumnIndex(tableSchemaList)
      && tableContextIdMap == TableIndex(tableSchemaList)
    }

    /** Build the index: for each entry in order, append its relation, record
        its position under each of its column names, and point its table name
        at it. */
    constructor (tableSchemaList: seq<NamedSchema>)
      ensures Valid() && this.tableSchemaList == tableSchemaList
    {
      this.tableSchemaList := tableSchemaList;
      rowSchemaInfoList := [];
      colContextIdMap := map[];
      tableContextIdMap := map[];
      new;
      for i := 0 to |tableSchemaList|
        invariant rowSchemaInfoList == RowInfos(tableSchemaList[..i])
        invariant colContextIdMap == ColumnIndex(tableSchemaList[..i])
        invariant tableContextIdMap == TableIndex(tableSchemaList[..i])
      {
        var entry := tableSchemaList[i];
        assert tableSchemaList[..i + 1][..i] == tableSchemaList[..i];
        rowSchemaInfoList := rowSchemaInfoList + [RowSchemaInfo(i, entry.relationName, entry.schema)];
        var columns := entry.schema;
        for j := 0 to |columns|
          invariant AddColumnIds(colContextIdMap, i, columns[j..]) == ColumnIndex(tableSchemaList[..i + 1])
          invariant rowSchemaInfoList == RowInfos(tableSchemaList[..i + 1])
          invariant tableContextIdMap == TableIndex(tableSchemaList[..i])
        {
          assert columns[j..][1..] == columns[j + 1..];
          var name := columns[j].name;
          colContextIdMap := colContextIdMap[name := IdsOf(colContextIdMap, name) + [i]];
        }
        tableContextIdMap := tableContextIdMap[entry.relationName := i];
      }
      assert tableSchemaList[..|tableSchemaList|] == tableSchemaList;
    }

    /** Resolve a whole relation by table name: the relation last listed
        under that name, if any. */
    function AllRefResolved(relationName: string): (r: Option<RowSchemaInfo>)
      reads this
      requires Valid()
      ensures r.Some? <==> exists i :: 0 <= i < |tableSchemaList| && tableSchemaList[i].relationName == relationName
      ensures r.Some? ==> r.value.idx < |rowSchemaInfoList| && rowSchemaInfoList[r.value.idx] == r.value
                          && r.value.tableName == relationName
                          && forall j :: r.value.idx < j < |tableSchemaList| ==> tableSchemaList[j].relationName != relationName
    {
      TableIndexLast(tableSchemaList, relationName);
      RowInfosAt(tableSchemaList);
      if relationName in tableContextIdMap then Some(rowSchemaInfoList[tableContextIdMap[relationName]]) else None
    }

    /** Resolve a column reference. A qualified reference resolves to the
        last relation of that table name when it has the column, and fails
        otherwise; an unqualified one resolves only when the column name is
        recorded exactly once. */
    function ColumnRefResolved(relationName: string, colName: string): (r: Option<RowSchemaInfo>)
      reads this
      requires Valid()
      ensures r.Some? ==> r.value.idx < |rowSchemaInfoList| && rowSchemaInfoList[r.value.idx] == r.value
                          && HasColumn(r.value.schema, colName)
      ensures r.Some? && relationName != "" ==> r.value.tableName == relationName
      ensures r.Some? && relationName == "" ==>
                forall i :: 0 <= i < |rowSchemaInfoList| && HasColumn(rowSchemaInfoList[i].schema, colName) ==>
                  i == r.value.idx
      ensures (forall i :: 0 <= i < |rowSchemaInfoList| ==> !HasColumn(rowSchemaInfoList[i].schema, colName)) ==>
                r.None?
      ensures relationName != "" && AllRefResolved(relationName).Some?
              && HasColumn(AllRefResolved(relationName).value.schema, colName)
              ==> r == AllRefResolved(relationName)
      ensures relationName != "" && (AllRefResolved(relationName).None?
                                     || !HasColumn(AllRefResolved(relationName).value.schema, colName))
              ==> r.None?
      ensures forall i :: relationName == "" && 0 <= i < |rowSchemaInfoList|
                          && Occurrences(rowSchemaInfoList[i].schema, colName) == 1
                          && (forall j :: 0 <= j < |rowSchemaInfoList| && j != i ==>
                                !HasColumn(rowSchemaInfoList[j].schema, colName))
                          ==> r == Some(rowSchemaInfoList[i])
    {
      RowInfosAt(tableSchemaList);
      ColumnIdsExact(tableSchemaList, colName);
      SingleRelationResolves(colName);
      if relationName == "" then
        var ids := IdsOf(colContextIdMap, colName);
        if |ids| == 1 then
          assert ids[0] in ids;
          Some(rowSchemaInfoList[ids[0]])
        else None
      else
        match AllRefResolved(relationName)
        case None => None
        case Some(info) => if HasColumn(info.schema, colName) then Some(info) else None
    }

    /** An unqualified column that only relation `i` has, once, is recorded
        under exactly that relation. */
    lemma SingleRelationResolves(colName: string)
      requires Valid()
      ensures forall i :: 0 <= i < |rowSchemaInfoList|
                          && Occurrences(rowSchemaInfoList[i].schema, colName) == 1
                          && (forall j :: 0 <= j < |rowSchemaInfoList| && j != i ==>
                                !HasColumn(rowSchemaInfoList[j].schema, colName))
                          ==> IdsOf(colContextIdMap, colName) == [i]
    {
      RowInfosAt(tableSchemaList);
      forall i | 0 <= i < |rowSchemaInfoList|
                 && Occurrences(rowSchemaInfoList[i].schema, colName) == 1
                 && (forall j :: 0 <= j < |rowSchemaInfoList| && j != i ==>
                       !HasColumn(rowSchemaInfoList[j].schema, colName))
        ensures IdsOf(colContextIdMap, colName) == [i]
      {
        ColumnIdsSingleRelation(tableSchemaList, colName, i);
      }
    }

    /** Resolve one expression: a column reference as above, any other
        expression kind fails. */
    function ExprRefResolved(expr: Expr): (r: Option<RowSchemaInfo>)
      reads this
      requires Valid()
      ensures r.Some? ==> expr.ColumnRefExpr? && r.value.idx < |rowSchemaInfoList|
                          && rowSchemaInfoList[r.value.idx] == r.value
                          && HasColumn(r.value.schema, expr.columnName)
      ensures expr.ColumnRefExpr? ==> r == ColumnRefResolved(expr.relationName, expr.columnName)
      ensures expr.OtherExpr? ==> r.None?
    {
      match expr
      case ColumnRefExpr(relationName, columnName) => ColumnRefResolved(relationName, columnName)
      case OtherExpr => None
    }

    /** Resolve a list of expressions to the one relation all of them refer
        to; an empty list, a failing expression or two different relations
        fail. */
    function ExprListResolved(exprs: seq<Expr>): (r: Option<RowSchemaInfo>)
      reads this
      requires Valid()
      ensures r.Some? ==> |exprs| > 0 && forall k :: 0 <= k < |exprs| ==> ExprRefResolved(exprs[k]) == r
      ensures |exprs| > 0 && ExprRefResolved(exprs[0]).Some?
              && (forall k :: 0 <= k < |exprs| ==> ExprRefResolved(exprs[k]) == ExprRefResolved(exprs[0]))
              ==> r == ExprRefResolved(exprs[0])
      decreases |exprs|
    {
      if |exprs| == 0 then None
      else
        var first := ExprRefResolved(exprs[0]);
        if first.None? || |exprs| == 1 then first
        else if ExprListResolved(exprs[1..]) == first then first
        else None
    }
  }
}
