/** The second copy of the upsert builders (keepitsql/core/merge.py). Its
    `Merge.merge` is the same statement assembly as `Upsert.Merge`; its
    `insert_on_conflict` prints the statement instead of returning it. */
module CoreMerge {
  import opened Runtime
  import opened Strings
  import opened TableProperties
  import Upsert
  import MT = MergeTemplates

  /** What a call shows: the text it writes to standard output and the
      value it returns. */
  datatype Printed = Printed(stdout: string, returned: Option<string>)

  /** `InsertOnConflict.insert_on_conflict` of keepitsql/core/merge.py: it
      writes the same ON CONFLICT statement the upsert.py copy returns,
      followed by a line break, and returns `None`. */
  function InsertOnConflict(t: Upsert.Target, insertStatement: string, sourceTable: string, matchCondition: seq<string>,
                            sourceSchema: Option<string>, columnExclusion: Option<seq<string>>,
                            tempType: Option<string>): (r: Printed)
    ensures r.returned == None
    ensures r.stdout == Upsert.InsertOnConflict(t, insertStatement, sourceTable, matchCondition,
                                                sourceSchema, columnExclusion, tempType) + "\n"
  {
    var updateListColumns := Elements(SelectDataframeColumn(t.dataframe, None, "list").value);
    var updateList := Join(Upsert.ExcludedAssignments(Upsert.ConflictUpdateColumns(updateListColumns, matchCondition)), ",\n");
    var onConflictStatement := Upsert.ConflictStatement(insertStatement, Join(matchCondition, ","), updateList);
    Printed(onConflictStatement + "\n", None)
  }

  /** When every column is a match or an excluded column, the guard, SET,
      INSERT and VALUES lists are empty text and the statement is still
      produced. */
  lemma EmptyInclusionClauses(targetTable: string, sourceTable: string, allColumns: seq<string>,
                              matchCondition: seq<string>, columnExclusion: seq<string>)
    requires forall c :: c in allColumns ==> c in matchCondition || c in columnExclusion
    ensures Upsert.ColumnInclusion(allColumns, matchCondition, columnExclusion) == []
    ensures Upsert.MergeStatementText(targetTable, sourceTable, allColumns, matchCondition, columnExclusion)
         == MT.Head + (targetTable + (MT.AsTargetUsing + (sourceTable + (MT.AsSourceOn +
            (Join(Upsert.JoinConditions(matchCondition), ",\n  ") + (MT.WhenMatchedAnd + (MT.ThenUpdateSet +
            (MT.WhenNotMatchedInsert + (MT.CloseValues + MT.Tail)))))))))
  {
    var inc := Upsert.ColumnInclusion(allColumns, matchCondition, columnExclusion);
    NothingIncluded(allColumns, matchCondition, columnExclusion);
    assert Join(Upsert.MatchedConditions(inc), ",\n OR ") == "";
    assert Join(Upsert.UpdateAssignments(inc), ",\n") == "";
    assert Join(inc, ",\n") == "";
    assert Join(Upsert.InsertValues(inc), ",\n") == "";
    assert "" + MT.Tail == MT.Tail;
    assert "" + (MT.CloseValues + MT.Tail) == MT.CloseValues + MT.Tail;
    assert "" + (MT.WhenNotMatchedInsert + (MT.CloseValues + MT.Tail)) == MT.WhenNotMatchedInsert + (MT.CloseValues + MT.Tail);
    assert "" + (MT.ThenUpdateSet + (MT.WhenNotMatchedInsert + (MT.CloseValues + MT.Tail)))
        == MT.ThenUpdateSet + (MT.WhenNotMatchedInsert + (MT.CloseValues + MT.Tail));
  }

  lemma NothingIncluded(allColumns: seq<string>, matchCondition: seq<string>, columnExclusion: seq<string>)
    requires forall c :: c in allColumns ==> c in matchCondition || c in columnExclusion
    ensures Upsert.ColumnInclusion(allColumns, matchCondition, columnExclusion) == []
  {
    var inc := Upsert.ColumnInclusion(allColumns, matchCondition, columnExclusion);
    assert forall i :: 0 <= i < |inc| ==> inc[i] in inc;
  }
}
