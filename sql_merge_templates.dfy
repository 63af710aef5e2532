/** The MERGE templates (keepitsql/sql_models/upsert/merge_statement.py). */
module MergeTemplates {
  import opened Templates

  /** The slots of the per-column templates. */
  datatype ColumnSlot = SourceColumn | TargetColumn

  /** The slots of the statement skeleton. */
  datatype MergeSlot =
    | TargetTable | SourceTable | MergeJoinConditions | MatchedCondition
    | UpdateListSlot | InsertColumns | MergeInsertValue

  const MergeCondition: Template<ColumnSlot> :=
    Lit("SOURCE.", Slot(SourceColumn, Lit(" = ", Slot(TargetColumn, End))))
  const WhenMatchedCondition: Template<ColumnSlot> :=
    Lit("TARGET.", Slot(TargetColumn, Lit(" <> SOURCE.", Slot(SourceColumn, End))))
  const UpdateList: Template<ColumnSlot> :=
    Lit(" ", Slot(TargetColumn, Lit(" = SOURCE.", Slot(SourceColumn, End))))
  const MergeInsert: Template<ColumnSlot> :=
    Lit("SOURCE.", Slot(SourceColumn, End))
  const MergeInsertColumns: Template<ColumnSlot> :=
    Slot(SourceColumn, End)

  // The literal runs of the skeleton, in order.
  const Head := "\nMERGE INTO "
  const AsTargetUsing := " AS TARGET\nUSING "
  const AsSourceOn := " AS SOURCE\n\nON "
  const WhenMatchedAnd := "\n\nWHEN MATCHED AND (\n"
  const ThenUpdateSet := "\n)\nTHEN UPDATE\nSET "
  const WhenNotMatchedInsert := "\n\nWHEN NOT MATCHED THEN\nINSERT(\n"
  const CloseValues := "\n)\nVALUES(\n"
  const Tail := "\n);\n"

  const MergeStatement: Template<MergeSlot> :=
    Lit(Head, Slot(TargetTable, Lit(AsTargetUsing, Slot(SourceTable, Lit(AsSourceOn,
    Slot(MergeJoinConditions, Lit(WhenMatchedAnd, Slot(MatchedCondition, Lit(ThenUpdateSet,
    Slot(UpdateListSlot, Lit(WhenNotMatchedInsert, Slot(InsertColumns, Lit(CloseValues,
    Slot(MergeInsertValue, Lit(Tail, End)))))))))))))))

  /** The join condition qualifies only the source side. */
  lemma MergeConditionText(a: ColumnSlot -> string)
    ensures Format(MergeCondition, a) == "SOURCE." + a(SourceColumn) + " = " + a(TargetColumn)
  {
  }

  /** The guard compares target against source. */
  lemma WhenMatchedConditionText(a: ColumnSlot -> string)
    ensures Format(WhenMatchedCondition, a) == "TARGET." + a(TargetColumn) + " <> SOURCE." + a(SourceColumn)
  {
  }

  /** An assignment of the SET list, with its leading space. */
  lemma UpdateListText(a: ColumnSlot -> string)
    ensures Format(UpdateList, a) == " " + a(TargetColumn) + " = SOURCE." + a(SourceColumn)
  {
  }

  /** VALUES entries are source-qualified, INSERT columns are bare. */
  lemma MergeInsertText(a: ColumnSlot -> string)
    ensures Format(MergeInsert, a) == "SOURCE." + a(SourceColumn)
    ensures Format(MergeInsertColumns, a) == a(SourceColumn)
  {
  }

  /** The skeleton: MERGE INTO .. AS TARGET, USING .. AS SOURCE, ON, the
      guarded WHEN MATCHED branch with its SET list, then WHEN NOT MATCHED
      with INSERT(..) VALUES(..); each slot in that order. */
  lemma MergeStatementText(a: MergeSlot -> string)
    ensures Format(MergeStatement, a) ==
      Head + (a(TargetTable) + (AsTargetUsing + (a(SourceTable) + (AsSourceOn +
      (a(MergeJoinConditions) + (WhenMatchedAnd + (a(MatchedCondition) + (ThenUpdateSet +
      (a(UpdateListSlot) + (WhenNotMatchedInsert + (a(InsertColumns) + (CloseValues +
      (a(MergeInsertValue) + Tail)))))))))))))
  {
    var t7 := Lit(Tail, End);
    var t6 := Lit(CloseValues, Slot(MergeInsertValue, t7));
    var t5 := Lit(WhenNotMatchedInsert, Slot(InsertColumns, t6));
    var t4 := Lit(ThenUpdateSet, Slot(UpdateListSlot, t5));
    var t3 := Lit(WhenMatchedAnd, Slot(MatchedCondition, t4));
    var t2 := Lit(AsSourceOn, Slot(MergeJoinConditions, t3));
    var t1 := Lit(AsTargetUsing, Slot(SourceTable, t2));
    assert Format(t6, a) == CloseValues + (a(MergeInsertValue) + Tail);
    assert Format(t5, a) == WhenNotMatchedInsert + (a(InsertColumns) + Format(t6, a));
    assert Format(t4, a) == ThenUpdateSet + (a(UpdateListSlot) + Format(t5, a));
    assert Format(t3, a) == WhenMatchedAnd + (a(MatchedCondition) + Format(t4, a));
    assert Format(t2, a) == AsSourceOn + (a(MergeJoinConditions) + Format(t3, a));
    assert Format(t1, a) == AsTargetUsing + (a(SourceTable) + Format(t2, a));
  }

  /** Each of the seven slots occurs exactly once in the skeleton. */
  lemma MergeStatementSlotsOnce(k: MergeSlot)
    ensures Count(MergeStatement, k) == 1
  {
    var t7: Template<MergeSlot> := Lit(Tail, End);
    var t6 := Lit(CloseValues, Slot(MergeInsertValue, t7));
    var t5 := Lit(WhenNotMatchedInsert, Slot(InsertColumns, t6));
    var t4 := Lit(ThenUpdateSet, Slot(UpdateListSlot, t5));
    var t3 := Lit(WhenMatchedAnd, Slot(MatchedCondition, t4));
    var t2 := Lit(AsSourceOn, Slot(MergeJoinConditions, t3));
    var t1 := Lit(AsTargetUsing, Slot(SourceTable, t2));
    assert Count(t7, k) == 0;
    assert Count(t6, k) == if k.MergeInsertValue? then 1 else 0;
    assert Count(t5, k) == if k.MergeInsertValue? || k.InsertColumns? then 1 else 0;
    assert Count(t4, k) == if k.MergeInsertValue? || k.InsertColumns? || k.UpdateListSlot? then 1 else 0;
    assert Count(t3, k) == if k.TargetTable? || k.SourceTable? || k.MergeJoinConditions? then 0 else 1;
    assert Count(t2, k) == if k.TargetTable? || k.SourceTable? then 0 else 1;
    assert Count(t1, k) == if k.TargetTable? then 0 else 1;
  }
}
