/** The INSERT .. ON CONFLICT templates
    (keepitsql/sql_models/upsert/insert_on_confict.py). */
module ConflictTemplates {
  import opened Templates

  /** The slots used by this module's templates (`insert_statment` is the
      spelling the templates use). */
  datatype ConflictSlot =
    | InsertStatement | UpdateStatement | Column
    | InsertStatment | MatchCondition | UpdateListSlot

  const InsertSyntax: Template<ConflictSlot> := Slot(InsertStatement, End)
  const UpdateSyntax: Template<ConflictSlot> := Slot(UpdateStatement, End)
  const UpdateList: Template<ConflictSlot> :=
    Slot(Column, Lit(" = EXCLUDED.", Slot(Column, End)))

  const Newline := "\n"
  const WhereTrue := "\nwhere_true"
  const OnConflict := "\nON CONFLICT ("
  const DoUpdateSet := ")\nDO UPDATE SET\n"

  const InsertOnConflict: Template<ConflictSlot> :=
    Lit(Newline, Slot(InsertStatment, Lit(OnConflict, Slot(MatchCondition,
    Lit(DoUpdateSet, Slot(UpdateListSlot, Lit(Newline, End)))))))

  const InsertOnConflictSqlite: Template<ConflictSlot> :=
    Lit(Newline, Slot(InsertStatment, Lit(WhereTrue + OnConflict, Slot(MatchCondition,
    Lit(DoUpdateSet, Slot(UpdateListSlot, Lit(Newline, End)))))))

  /** `insert_syntax` and `update_syntax` hand back their one argument. */
  lemma IdentityTemplates(a: ConflictSlot -> string)
    ensures Format(InsertSyntax, a) == a(InsertStatement)
    ensures Format(UpdateSyntax, a) == a(UpdateStatement)
  {
  }

  /** An update assignment takes the proposed row's value. */
  lemma UpdateListText(a: ConflictSlot -> string)
    ensures Format(UpdateList, a) == a(Column) + " = EXCLUDED." + a(Column)
  {
  }

  /** The clause after the insert text: conflict target, then the update list. */
  function ConflictTail(a: ConflictSlot -> string): string {
    OnConflict + (a(MatchCondition) + (DoUpdateSet + (a(UpdateListSlot) + Newline)))
  }

  /** The statement is the insert text, `ON CONFLICT (m)`, `DO UPDATE SET`
      and the update list, in that order; the SQLite variant differs only by
      a `where_true` line between the insert text and `ON CONFLICT`. */
  lemma InsertOnConflictText(a: ConflictSlot -> string)
    ensures Format(InsertOnConflict, a) == Newline + (a(InsertStatment) + ConflictTail(a))
    ensures Format(InsertOnConflictSqlite, a) == Newline + (a(InsertStatment) + (WhereTrue + ConflictTail(a)))
  {
    var tail := Lit(DoUpdateSet, Slot(UpdateListSlot, Lit(Newline, End)));
    assert Format(tail, a) == DoUpdateSet + (a(UpdateListSlot) + Newline);
    assert Format(Lit(WhereTrue + OnConflict, Slot(MatchCondition, tail)), a)
        == WhereTrue + ConflictTail(a);
  }
}
