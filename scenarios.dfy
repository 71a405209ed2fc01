/** Clients that use only the contracts above: a small plan derived bottom-up,
    and column resolution over a two-relation context. */
module Scenarios {
  import opened Catalog
  import opened PhysicalOp
  import opened SchemaContext

  method DeriveJoinPlan()
  {
    var a, b, c := ColumnDef("a", 1), ColumnDef("b", 2), ColumnDef("c", 1);
    var left := new Node(TableProvider, [], Some(TableHandler("t", Some([a, b]))), []);
    var ok := left.InitDataProviderSchema();
    assert ok && left.outputSchema == [a, b] && left.nameSchemaList == [NamedSchema("t", [a, b])];

    var right := new Node(TableProvider, [], Some(TableHandler("u", Some([c]))), []);
    ok := right.InitDataProviderSchema();

    var filter := new Node(Filter, [right], None, []);
    ok := filter.InitUnarySchema();
    assert ok && filter.outputSchema == [c] && filter.nameSchemaList == [NamedSchema("u", [c])];

    var join := new Node(Join, [left, filter], None, []);
    ok := join.InitJoinSchema();
    assert ok && join.outputSchema == [a, b, c];
    assert join.nameSchemaList == [NamedSchema("t", [a, b]), NamedSchema("u", [c])];
    assert CastFrom(join, JoinNode) == join && CastFrom(join, GroupNode) == null;

    // A second derivation of the filter lists its relation twice.
    ok := filter.InitUnarySchema();
    assert ok && filter.nameSchemaList == [NamedSchema("u", [c]), NamedSchema("u", [c])];
  }

  method DeriveFailures()
  {
    // A provider whose table has no schema fails and stays empty.
    var broken := new Node(RequestProvider, [], Some(TableHandler("r", None)), []);
    var ok := broken.InitSchema();
    assert !ok && broken.nameSchemaList == [];

    // A join with a missing side fails and stays empty.
    var halfJoin := new Node(RequestJoin, [broken, null], None, []);
    ok := halfJoin.InitSchema();
    assert !ok && halfJoin.outputSchema == [] && halfJoin.nameSchemaList == [];

    // Window aggregation always fails.
    var window := new Node(WindowAggregation, [broken], None, []);
    ok := window.InitSchema();
    assert !ok && window.nameSchemaList == [];
    assert CastFrom(window, ProjectNode) == window;
  }

  /** The context over t1 = [a] and t2 = [a, b]. */
  method TwoRelations() returns (ctx: SchemasContext)
    ensures ctx.Valid()
    ensures ctx.rowSchemaInfoList == [RowSchemaInfo(0, "t1", [ColumnDef("a", 1)]),
                                      RowSchemaInfo(1, "t2", [ColumnDef("a", 1), ColumnDef("b", 1)])]
    ensures ctx.tableSchemaList == [NamedSchema("t1", [ColumnDef("a", 1)]),
                                    NamedSchema("t2", [ColumnDef("a", 1), ColumnDef("b", 1)])]
  {
    var a, b := ColumnDef("a", 1), ColumnDef("b", 1);
    var list := [NamedSchema("t1", [a]), NamedSchema("t2", [a, b])];
    ctx := new SchemasContext(list);
    RowInfosAt(list);
  }

  method ResolveQualified()
  {
    var a, b := ColumnDef("a", 1), ColumnDef("b", 1);
    var ctx := TwoRelations();
    assert ctx.tableSchemaList[0].relationName == "t1";
    assert HasColumn([a], "a") by { assert [a][0].name == "a"; }
    // Qualified references resolve to the named relation when it has the column.
    assert ctx.ColumnRefResolved("t1", "a") == Some(RowSchemaInfo(0, "t1", [a]));
    assert ctx.ColumnRefResolved("t3", "a").None?;
    assert !HasColumn([a, b], "c");
    assert ctx.ColumnRefResolved("t2", "c").None?;
  }

  method ResolveUnqualified()
  {
    var a, b := ColumnDef("a", 1), ColumnDef("b", 1);
    var ctx := TwoRelations();
    assert HasColumn([a], "a") by { assert [a][0].name == "a"; }
    assert HasColumn([a, b], "a") by { assert [a, b][0].name == "a"; }
    // Unqualified `a` is in both relations: ambiguous.
    assert HasColumn(ctx.rowSchemaInfoList[0].schema, "a") && HasColumn(ctx.rowSchemaInfoList[1].schema, "a");
    assert ctx.ColumnRefResolved("", "a").None?;
    // Unqualified `b` is only in t2, once.
    assert !HasColumn([a], "b");
    assert Occurrences([b], "b") == 1 by { assert [b][1..] == []; }
    assert Occurrences([a, b], "b") == 1 by { assert [a, b][1..] == [b]; }
    assert Occurrences(ctx.rowSchemaInfoList[1].schema, "b") == 1;
    assert forall j :: 0 <= j < |ctx.rowSchemaInfoList| && j != 1 ==> !HasColumn(ctx.rowSchemaInfoList[j].schema, "b");
    assert ctx.ColumnRefResolved("", "b") == Some(RowSchemaInfo(1, "t2", [a, b]));
  }

  method ResolveLists()
  {
    var a, b := ColumnDef("a", 1), ColumnDef("b", 1);
    var ctx := TwoRelations();
    assert ctx.tableSchemaList[0].relationName == "t1";
    assert HasColumn([a], "a") by { assert [a][0].name == "a"; }
    assert HasColumn([a, b], "b") by { assert [a, b][1].name == "b"; }
    assert !HasColumn([a], "b");
    assert Occurrences([b], "b") == 1 by { assert [b][1..] == []; }
    assert Occurrences([a, b], "b") == 1 by { assert [a, b][1..] == [b]; }
    var t1a, ub := ColumnRefExpr("t1", "a"), ColumnRefExpr("", "b");
    var t1Info, t2Info := RowSchemaInfo(0, "t1", [a]), RowSchemaInfo(1, "t2", [a, b]);
    assert ctx.ExprRefResolved(t1a) == Some(t1Info);
    assert Occurrences(ctx.rowSchemaInfoList[1].schema, "b") == 1;
    assert forall j :: 0 <= j < |ctx.rowSchemaInfoList| && j != 1 ==> !HasColumn(ctx.rowSchemaInfoList[j].schema, "b");
    assert ctx.ExprRefResolved(ub) == Some(t2Info);
    // A list of references agrees on t1, or mixes relations and fails.
    var same, mixed := [t1a, t1a], [t1a, ub];
    assert ctx.ExprRefResolved(same[0]) == Some(t1Info) && ctx.ExprRefResolved(same[1]) == Some(t1Info);
    assert ctx.ExprListResolved(same) == Some(t1Info);
    assert ctx.ExprRefResolved(mixed[0]) != ctx.ExprRefResolved(mixed[1]);
    assert ctx.ExprListResolved(mixed).None?;
    assert ctx.ExprListResolved([]).None?;
  }

  method ResolveRepeatedName()
  {
    var a, b := ColumnDef("a", 1), ColumnDef("b", 1);
    var list := [NamedSchema("t", [a]), NamedSchema("t", [b])];
    var ctx := new SchemasContext(list);
    RowInfosAt(list);
    // The table name points at the last relation named t, which lacks `a`.
    assert ctx.tableSchemaList[1].relationName == "t";
    assert ctx.AllRefResolved("t") == Some(RowSchemaInfo(1, "t", [b]));
    assert !HasColumn([b], "a");
    assert ctx.ColumnRefResolved("t", "a").None?;
    assert HasColumn([b], "b") by { assert [b][0].name == "b"; }
    assert ctx.ColumnRefResolved("t", "b") == Some(RowSchemaInfo(1, "t", [b]));
  }
}
