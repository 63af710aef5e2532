/** The upsert builders (keepitsql/core/upsert.py): MERGE, INSERT .. ON
    CONFLICT, and the dispatch between them. */
module Upsert {
  import opened Runtime
  import opened Strings
  import opened Templates
  import opened TableProperties
  import MT = MergeTemplates
  import CT = ConflictTemplates

  /** The fields `Merge`, `InsertOnConflict` and `Upsert` each store. */
  datatype Target = Target(targetTable: string, targetSchema: Option<string>, dataframe: DataFrame)

  /** A missing exclusion list counts as an empty one. */
  function ExclusionList(columnExclusion: Option<seq<string>>): seq<string> {
    if columnExclusion.None? then [] else columnExclusion.value
  }

  /** `column_inclusion`: the columns that are neither match nor excluded
      columns, compared case-sensitively, in dataframe order. */
  function ColumnInclusion(allColumns: seq<string>, matchCondition: seq<string>, columnExclusion: seq<string>): (r: seq<string>)
    ensures forall c :: c in r <==> c in allColumns && c !in matchCondition && c !in columnExclusion
    ensures forall c :: multiset(r)[c] == if c in matchCondition || c in columnExclusion then 0 else multiset(allColumns)[c]
    ensures IsSubsequence(r, allColumns)
  {
    Filter(allColumns, c => c !in matchCondition && c !in columnExclusion)
  }

  /** The ON conditions: `SOURCE.c = c` per match column, in order. */
  function JoinConditions(matchCondition: seq<string>): (r: seq<string>)
    ensures |r| == |matchCondition|
    ensures forall i :: 0 <= i < |r| ==> r[i] == "SOURCE." + matchCondition[i] + " = " + matchCondition[i]
  {
    var r := FormatEach(MT.MergeCondition, matchCondition);
    assert forall i :: 0 <= i < |r| ==> r[i] == "SOURCE." + matchCondition[i] + " = " + matchCondition[i] by {
      forall i | 0 <= i < |r| ensures r[i] == "SOURCE." + matchCondition[i] + " = " + matchCondition[i] {
        MT.MergeConditionText(Same(matchCondition[i]));
      }
    }
    r
  }

  /** The WHEN MATCHED guard: `TARGET.c <> SOURCE.c` per column, in order. */
  function MatchedConditions(columns: seq<string>): (r: seq<string>)
    ensures |r| == |columns|
    ensures forall i :: 0 <= i < |r| ==> r[i] == "TARGET." + columns[i] + " <> SOURCE." + columns[i]
  {
    var r := FormatEach(MT.WhenMatchedCondition, columns);
    assert forall i :: 0 <= i < |r| ==> r[i] == "TARGET." + columns[i] + " <> SOURCE." + columns[i] by {
      forall i | 0 <= i < |r| ensures r[i] == "TARGET." + columns[i] + " <> SOURCE." + columns[i] {
        MT.WhenMatchedConditionText(Same(columns[i]));
      }
    }
    r
  }

  /** The SET list: ` c = SOURCE.c` per column, in order. */
  function UpdateAssignments(columns: seq<string>): (r: seq<string>)
    ensures |r| == |columns|
    ensures forall i :: 0 <= i < |r| ==> r[i] == " " + columns[i] + " = SOURCE." + columns[i]
  {
    var r := FormatEach(MT.UpdateList, columns);
    assert forall i :: 0 <= i < |r| ==> r[i] == " " + columns[i] + " = SOURCE." + columns[i] by {
      forall i | 0 <= i < |r| ensures r[i] == " " + columns[i] + " = SOURCE." + columns[i] {
        MT.UpdateListText(Same(columns[i]));
      }
    }
    r
  }

  /** The VALUES list: `SOURCE.c` per column, in order. */
  function InsertValues(columns: seq<string>): (r: seq<string>)
    ensures |r| == |columns|
    ensures forall i :: 0 <= i < |r| ==> r[i] == "SOURCE." + columns[i]
  {
    var r := FormatEach(MT.MergeInsert, columns);
    assert forall i :: 0 <= i < |r| ==> r[i] == "SOURCE." + columns[i] by {
      forall i | 0 <= i < |r| ensures r[i] == "SOURCE." + columns[i] {
        MT.MergeInsertText(Same(columns[i]));
      }
    }
    r
  }

  /** The INSERT column list: the bare column names themselves. */
  function InsertColumns(columns: seq<string>): (r: seq<string>)
    ensures r == columns
  {
    var r := FormatEach(MT.MergeInsertColumns, columns);
    assert forall i :: 0 <= i < |r| ==> r[i] == columns[i] by {
      forall i | 0 <= i < |r| ensures r[i] == columns[i] {
        MT.MergeInsertText(Same(columns[i]));
      }
    }
    r
  }

  function MergeArgs(targetTable: string, sourceTable: string, joinConditions: string, matchedCondition: string,
                     updateList: string, insertColumns: string, insertValues: string): MT.MergeSlot -> string {
    (k: MT.MergeSlot) => match k
      case TargetTable => targetTable
      case SourceTable => sourceTable
      case MergeJoinConditions => joinConditions
      case MatchedCondition => matchedCondition
      case UpdateListSlot => updateList
      case InsertColumns => insertColumns
      case MergeInsertValue => insertValues
  }

  /** The statement assembly shared by every MERGE builder, over already
      formatted table names: ON conditions joined by `",\n  "` (a comma,
      not AND), the guard by `",\n OR "`, and the SET, INSERT and VALUES
      lists by `",\n"`, the last three all over the included columns. */
  function MergeStatementText(targetTable: string, sourceTable: string, allColumns: seq<string>,
                              matchCondition: seq<string>, columnExclusion: seq<string>): (r: string)
    ensures var inc := ColumnInclusion(allColumns, matchCondition, columnExclusion);
      r == MT.Head + (targetTable + (MT.AsTargetUsing + (sourceTable + (MT.AsSourceOn +
        (Join(JoinConditions(matchCondition), ",\n  ") + (MT.WhenMatchedAnd +
        (Join(MatchedConditions(inc), ",\n OR ") + (MT.ThenUpdateSet +
        (Join(UpdateAssignments(inc), ",\n") + (MT.WhenNotMatchedInsert +
        (Join(inc, ",\n") + (MT.CloseValues +
        (Join(InsertValues(inc), ",\n") + MT.Tail)))))))))))))
  {
    var inc := ColumnInclusion(allColumns, matchCondition, columnExclusion);
    var on := Join(JoinConditions(matchCondition), ",\n  ");
    var guard := Join(MatchedConditions(inc), ",\n OR ");
    var updates := Join(UpdateAssignments(inc), ",\n");
    var columns := Join(InsertColumns(inc), ",\n");
    var values := Join(InsertValues(inc), ",\n");
    RenderMerge(targetTable, sourceTable, on, guard, updates, columns, values);
    Format(MT.MergeStatement, MergeArgs(targetTable, sourceTable, on, guard, updates, columns, values))
  }

  lemma RenderMerge(targetTable: string, sourceTable: string, on: string, guard: string,
                    updates: string, columns: string, values: string)
    ensures Format(MT.MergeStatement, MergeArgs(targetTable, sourceTable, on, guard, updates, columns, values))
         == MT.Head + (targetTable + (MT.AsTargetUsing + (sourceTable + (MT.AsSourceOn + (on +
            (MT.WhenMatchedAnd + (guard + (MT.ThenUpdateSet + (updates + (MT.WhenNotMatchedInsert +
            (columns + (MT.CloseValues + (values + MT.Tail)))))))))))))
  {
    MT.MergeStatementText(MergeArgs(targetTable, sourceTable, on, guard, updates, columns, values));
  }

  /** `Merge.merge`: the target name gets only its schema, the source name
      its schema and the temp-table marker; the columns are the frame's
      list-mode columns and a missing exclusion list is empty. */
  function Merge(t: Target, sourceTable: string, matchCondition: seq<string>, sourceSchema: Option<string>,
                 columnExclusion: Option<seq<string>>, tempType: Option<string>): (r: string)
    ensures r == MergeStatementText(FormatTableName(t.targetTable, None, t.targetSchema).value,
                                    FormatTableName(sourceTable, tempType, sourceSchema).value,
                                    ColumnList(t.dataframe), matchCondition, ExclusionList(columnExclusion))
  {
    var targetTable := FormatTableName(t.targetTable, None, t.targetSchema).value;
    var sourceName := FormatTableName(sourceTable, tempType, sourceSchema).value;
    var allColumns := Elements(SelectDataframeColumn(t.dataframe, None, "list").value);
    MergeStatementText(targetTable, sourceName, allColumns, matchCondition, ExclusionList(columnExclusion))
  }

  /** Passing no exclusion list and passing an empty one give the same MERGE. */
  lemma MergeNoneExclusion(t: Target, sourceTable: string, matchCondition: seq<string>,
                           sourceSchema: Option<string>, tempType: Option<string>)
    ensures Merge(t, sourceTable, matchCondition, sourceSchema, None, tempType)
         == Merge(t, sourceTable, matchCondition, sourceSchema, Some([]), tempType)
  {
  }

  /** With repeat-free columns and match columns that all belong to the
      frame, the guard, SET, INSERT and VALUES lists each have one entry per
      non-match column, and the ON list one per match column. */
  lemma MergeListSizes(allColumns: seq<string>, matchCondition: seq<string>)
    requires Distinct(allColumns) && Distinct(matchCondition)
    requires forall m :: m in matchCondition ==> m in allColumns
    ensures var inc := ColumnInclusion(allColumns, matchCondition, []);
      |inc| == |allColumns| - |matchCondition| &&
      |MatchedConditions(inc)| == |inc| && |UpdateAssignments(inc)| == |inc| &&
      |InsertColumns(inc)| == |inc| && |InsertValues(inc)| == |inc| &&
      |JoinConditions(matchCondition)| == |matchCondition|
  {
    var keep := c => c !in matchCondition && c !in [];
    assert ColumnInclusion(allColumns, matchCondition, []) == Filter(allColumns, keep);
    RemoveDistinctCount(allColumns, matchCondition, keep);
  }

  /** Columns [ItemID, ItemName, Quantity] matched on ItemID: one ON
      condition, and ItemName and Quantity, in that order, everywhere else. */
  lemma {:induction false} MergeExample()
    ensures var inc := ColumnInclusion(["ItemID", "ItemName", "Quantity"], ["ItemID"], []);
      inc == ["ItemName", "Quantity"] &&
      Join(JoinConditions(["ItemID"]), ",\n  ") == "SOURCE." + "ItemID" + " = " + "ItemID" &&
      Join(UpdateAssignments(inc), ",\n") ==
        " " + "ItemName" + " = SOURCE." + "ItemName" + ",\n" + (" " + "Quantity" + " = SOURCE." + "Quantity") &&
      Join(InsertValues(inc), ",\n") == "SOURCE." + "ItemName" + ",\n" + ("SOURCE." + "Quantity")
  {
    var all := ["ItemID", "ItemName", "Quantity"];
    ExampleInclusion();
    var inc := ["ItemName", "Quantity"];
    assert inc[1..] == ["Quantity"];
    var u := UpdateAssignments(inc);
    assert u[1..] == [u[1]];
    var v := InsertValues(inc);
    assert v[1..] == [v[1]];
  }

  lemma {:induction false} ExampleInclusion()
    ensures ColumnInclusion(["ItemID", "ItemName", "Quantity"], ["ItemID"], []) == ["ItemName", "Quantity"]
  {
    var all := ["ItemID", "ItemName", "Quantity"];
    var keep := c => c !in ["ItemID"] && c !in [];
    assert "ItemName"[4] != "ItemID"[4];
    assert "Quantity" != "ItemID";
    assert all[1..] == ["ItemName", "Quantity"] && all[1..][1..] == ["Quantity"] && all[1..][1..][1..] == [];
    assert Filter(all[1..][1..], keep) == ["Quantity"];
    assert Filter(all[1..], keep) == ["ItemName", "Quantity"];
  }

  /** Match and excluded columns are absent from the SET, INSERT and
      VALUES lists. */
  lemma MatchColumnsNotAssigned(allColumns: seq<string>, matchCondition: seq<string>, columnExclusion: seq<string>, c: string)
    requires c in matchCondition || c in columnExclusion
    ensures var inc := ColumnInclusion(allColumns, matchCondition, columnExclusion);
      " " + c + " = SOURCE." + c !in UpdateAssignments(inc) &&
      c !in InsertColumns(inc) &&
      "SOURCE." + c !in InsertValues(inc)
  {
    NotRendered(ColumnInclusion(allColumns, matchCondition, columnExclusion), c);
  }

  /** A name outside the column list has no entry rendered from it. */
  lemma NotRendered(columns: seq<string>, c: string)
    requires c !in columns
    ensures " " + c + " = SOURCE." + c !in UpdateAssignments(columns)
    ensures c !in InsertColumns(columns)
    ensures "SOURCE." + c !in InsertValues(columns)
  {
    var updates := UpdateAssignments(columns);
    var values := InsertValues(columns);
    forall i | 0 <= i < |columns|
      ensures updates[i] != " " + c + " = SOURCE." + c && values[i] != "SOURCE." + c
    {
      assert columns[i] in columns;
      RenderedNameInjective(" ", " = SOURCE.", columns[i], c);
      PrefixInjective("SOURCE.", columns[i], c);
    }
  }

  lemma PrefixInjective(p: string, c: string, d: string)
    ensures p + c == p + d ==> c == d
  {
    if p + c == p + d {
      assert (p + c)[|p|..] == c;
    }
  }

  /** A template that places the same name twice around fixed text renders
      different names differently. */
  lemma RenderedNameInjective(p: string, s: string, c: string, d: string)
    ensures p + c + s + c == p + d + s + d ==> c == d
  {
    if p + c + s + c == p + d + s + d {
      assert |c| == |d|;
      assert (p + c + s + c)[|p|..|p| + |c|] == c;
      assert (p + d + s + d)[|p|..|p| + |d|] == d;
    }
  }

  /** The match columns, upper-cased. */
  function UpperAll(names: seq<string>): (r: seq<string>)
    ensures |r| == |names| && forall i :: 0 <= i < |names| ==> r[i] == Upper(names[i])
  {
    seq(|names|, i requires 0 <= i < |names| => Upper(names[i]))
  }

  /** Column `c` names a match column once both are upper-cased. */
  predicate MatchesUpper(c: string, matchCondition: seq<string>) {
    exists m :: m in matchCondition && Upper(c) == Upper(m)
  }

  /** The columns `insert_on_conflict` updates: those whose upper-cased
      name differs from every upper-cased match column, in dataframe order,
      each as often as in the frame. */
  function ConflictUpdateColumns(allColumns: seq<string>, matchCondition: seq<string>): (r: seq<string>)
    ensures forall c :: c in r <==> c in allColumns && forall m :: m in matchCondition ==> Upper(c) != Upper(m)
    ensures forall c :: multiset(r)[c] == if MatchesUpper(c, matchCondition) then 0 else multiset(allColumns)[c]
    ensures IsSubsequence(r, allColumns)
  {
    var upperMatch := UpperAll(matchCondition);
    var r := Filter(allColumns, c => Upper(c) !in upperMatch);
    assert forall c :: Upper(c) in upperMatch <==> MatchesUpper(c, matchCondition) by {
      forall c ensures Upper(c) in upperMatch <==> MatchesUpper(c, matchCondition) {
        if Upper(c) in upperMatch {
          var i :| 0 <= i < |upperMatch| && upperMatch[i] == Upper(c);
          assert matchCondition[i] in matchCondition;
        }
      }
    }
    r
  }

  /** The update list entries `c = EXCLUDED.c`, one per column, in order. */
  function ExcludedAssignments(columns: seq<string>): (r: seq<string>)
    ensures |r| == |columns|
    ensures forall i :: 0 <= i < |r| ==> r[i] == columns[i] + " = EXCLUDED." + columns[i]
  {
    var r := FormatEach(CT.UpdateList, columns);
    assert forall i :: 0 <= i < |r| ==> r[i] == columns[i] + " = EXCLUDED." + columns[i] by {
      forall i | 0 <= i < |r| ensures r[i] == columns[i] + " = EXCLUDED." + columns[i] {
        CT.UpdateListText(Same(columns[i]));
      }
    }
    r
  }

  function ConflictArgs(insertStatement: string, matchConditions: string, updateList: string): CT.ConflictSlot -> string {
    (k: CT.ConflictSlot) => match k
      case InsertStatment => insertStatement
      case MatchCondition => matchConditions
      case UpdateListSlot => updateList
      case _ => ""
  }

  /** The statement text `insert_on_conflict` renders for the given insert
      text, conflict target and update list. */
  function ConflictStatement(insertStatement: string, matchConditions: string, updateList: string): (r: string)
    ensures r == CT.Newline + (insertStatement + (CT.OnConflict + (matchConditions +
                 (CT.DoUpdateSet + (updateList + CT.Newline)))))
  {
    var args := ConflictArgs(insertStatement, matchConditions, updateList);
    CT.InsertOnConflictText(args);
    Format(CT.InsertOnConflict, args)
  }

  /** `InsertOnConflict.insert_on_conflict`, over the insert text it starts
      from: the conflict target is the match columns joined by `","`; the
      update list assigns `EXCLUDED` values to the other columns, joined by
      `",\n"`. */
  function InsertOnConflict(t: Target, insertStatement: string, sourceTable: string, matchCondition: seq<string>,
                            sourceSchema: Option<string>, columnExclusion: Option<seq<string>>,
                            tempType: Option<string>): (r: string)
    ensures r == CT.Newline + (insertStatement + (CT.OnConflict + (Join(matchCondition, ",") +
                 (CT.DoUpdateSet + (Join(ExcludedAssignments(ConflictUpdateColumns(ColumnList(t.dataframe), matchCondition)), ",\n")
                 + CT.Newline)))))
  {
    var updateListColumns := Elements(SelectDataframeColumn(t.dataframe, None, "list").value);
    var updateList := Join(ExcludedAssignments(ConflictUpdateColumns(updateListColumns, matchCondition)), ",\n");
    ConflictStatement(insertStatement, Join(matchCondition, ","), updateList)
  }

  /** The source table, its schema, the exclusion list and the temp type
      have no effect on the ON CONFLICT statement. */
  lemma InsertOnConflictIgnoresSource(t: Target, insertStatement: string, matchCondition: seq<string>,
                                      s1: string, s2: string, schema1: Option<string>, schema2: Option<string>,
                                      e1: Option<seq<string>>, e2: Option<seq<string>>,
                                      temp1: Option<string>, temp2: Option<string>)
    ensures InsertOnConflict(t, insertStatement, s1, matchCondition, schema1, e1, temp1)
         == InsertOnConflict(t, insertStatement, s2, matchCondition, schema2, e2, temp2)
  {
  }

  /** MERGE compares names case-sensitively, ON CONFLICT case-insensitively:
      with match column `ID`, a frame column `id` is still assigned by the
      MERGE but not by the ON CONFLICT update list. */
  lemma ExclusionCaseSensitivity()
    ensures "id" in ColumnInclusion(["id", "Name"], ["ID"], [])
    ensures ConflictUpdateColumns(["id", "Name"], ["ID"]) == ["Name"]
  {
    assert "id"[0] != "ID"[0];
    ConflictDropsId(["id", "Name"], ["ID"]);
  }

  lemma ConflictDropsId(all: seq<string>, matchCondition: seq<string>)
    requires all == ["id", "Name"] && matchCondition == ["ID"]
    ensures ConflictUpdateColumns(all, matchCondition) == ["Name"]
  {
    var r := ConflictUpdateColumns(all, matchCondition);
    assert Upper("id") == "ID" && Upper("ID") == "ID";
    assert "ID" in matchCondition;
    assert "id" !in r;
    assert Upper("Name")[0] == 'N';
    assert "Name" in r;
    assert IsSubsequence(r, all);
    SubsequenceOfPair(r, "id", "Name");
  }

  /** A subsequence of a two-element list that leaves out the first element
      and keeps the second is the second alone. */
  lemma SubsequenceOfPair(r: seq<string>, a: string, b: string)
    requires IsSubsequence(r, [a, b]) && a !in r && b in r
    ensures r == [b]
  {
    assert r != [] && r[0] != a;
    assert [a, b][1..] == [b];
    assert IsSubsequence(r, [b]);
    assert [b][1..] == [];
    assert !IsSubsequence(r, []);
    assert r[0] == b && IsSubsequence(r[1..], []);
  }

  /** `Upsert.upsert`: MERGE when the strategy lookup for the DBMS answers
      `"MERGE"`, otherwise INSERT .. ON CONFLICT, with the same arguments. */
  function Upsert(t: Target, upsertTypeByDbms: Option<string> -> string, insertStatement: string, sourceTable: string,
                  matchCondition: seq<string>, sourceSchema: Option<string>, columnExclusion: Option<seq<string>>,
                  tempType: Option<string>, dbmsOutput: Option<string>): (r: string)
    ensures upsertTypeByDbms(dbmsOutput) == "MERGE" ==>
      r == Merge(t, sourceTable, matchCondition, sourceSchema, columnExclusion, tempType)
    ensures upsertTypeByDbms(dbmsOutput) != "MERGE" ==>
      r == InsertOnConflict(t, insertStatement, sourceTable, matchCondition, sourceSchema, columnExclusion, tempType)
  {
    if upsertTypeByDbms(dbmsOutput) == "MERGE" then
      Merge(t, sourceTable, matchCondition, sourceSchema, columnExclusion, tempType)
    else
      InsertOnConflict(t, insertStatement, sourceTable, matchCondition, sourceSchema, columnExclusion, tempType)
  }
}
