/** Dialect lookups and auto-increment detection
    (keepitsql/read_information_schema.py). */
module InformationSchema {
  import opened Runtime
  import opened Strings

  /** The eleven catalog queries of keepitsql/sql_models/information_schema.py,
      one per supported dialect; their SQL text is not part of this model. */
  datatype DialectQuery =
    | PostgresqlQuery | MysqlQuery | SqliteQuery | MssqlQuery | OracleQuery | Db2Query
    | TeradataQuery | HanaQuery | SnowflakeQuery | RedshiftQuery | BigqueryQuery

  /** The dialect name each query is registered under. */
  function DialectName(q: DialectQuery): string {
    match q
    case PostgresqlQuery => "postgresql"
    case MysqlQuery => "mysql"
    case SqliteQuery => "sqlite"
    case MssqlQuery => "mssql"
    case OracleQuery => "oracle"
    case Db2Query => "db2"
    case TeradataQuery => "teradata"
    case HanaQuery => "hana"
    case SnowflakeQuery => "snowflake"
    case RedshiftQuery => "redshift"
    case BigqueryQuery => "bigquery"
  }

  /** The dialect names the lookup table lists. */
  const DialectNames := ["postgresql", "mysql", "sqlite", "mssql", "oracle", "db2",
                         "teradata", "hana", "snowflake", "redshift", "bigquery"]

  function UnsupportedMessage(dialect: string): string {
    "Dialect '" + dialect + "' is not supported by this script."
  }

  /** `get_dialect_query`: the query registered under `dialect`, or
      NotImplementedError naming the dialect. */
  function GetDialectQuery(dialect: string): (r: Result<DialectQuery>)
    ensures r.Ok? <==> dialect in DialectNames
    ensures r.Ok? ==> DialectName(r.value) == dialect
    ensures r.Raise? ==> r == Raise(NotImplementedError(UnsupportedMessage(dialect)))
  {
    if dialect == "postgresql" then Ok(PostgresqlQuery)
    else if dialect == "mysql" then Ok(MysqlQuery)
    else if dialect == "sqlite" then Ok(SqliteQuery)
    else if dialect == "mssql" then Ok(MssqlQuery)
    else if dialect == "oracle" then Ok(OracleQuery)
    else if dialect == "db2" then Ok(Db2Query)
    else if dialect == "teradata" then Ok(TeradataQuery)
    else if dialect == "hana" then Ok(HanaQuery)
    else if dialect == "snowflake" then Ok(SnowflakeQuery)
    else if dialect == "redshift" then Ok(RedshiftQuery)
    else if dialect == "bigquery" then Ok(BigqueryQuery)
    else Raise(NotImplementedError(UnsupportedMessage(dialect)))
  }

  /** Every query is found again under its own dialect name, so the eleven
      names are distinct and each maps to its own query. */
  lemma DialectRoundTrip(q: DialectQuery)
    ensures GetDialectQuery(DialectName(q)) == Ok(q)
  {
    var r := GetDialectQuery(DialectName(q));
    assert r.Ok?;
    DialectNameInjective(r.value, q);
  }

  lemma DialectNameInjective(a: DialectQuery, b: DialectQuery)
    requires DialectName(a) == DialectName(b)
    ensures a == b
  {
    var n := DialectName(a);
    assert |n| == |DialectName(b)| && n[0] == DialectName(b)[0];
    assert n[|n| - 1] == DialectName(b)[|n| - 1];
  }

  /** The error for an unsupported dialect names that dialect. */
  lemma UnsupportedMessageNamesDialect(dialect: string)
    ensures GetDialectQuery(dialect).Raise? ==>
      Contains(GetDialectQuery(dialect).exception.message, dialect)
  {
    var msg := UnsupportedMessage(dialect);
    assert msg[9..9 + |dialect|] == dialect;
    assert OccursAt(msg, dialect, 9);
  }

  /** The dialects with a rule that can answer True; every other dialect,
      `sqlite` and `snowflake` included, falls through to False. */
  const AutoIncrementDialects := ["postgresql", "redshift", "mysql", "mssql", "oracle", "db2",
                                  "teradata", "hana", "bigquery"]

  /** `is_auto_increment`: the per-dialect rule, falling through to False.
      `is_computed` is never looked at. */
  function IsAutoIncrement(dialect: string, columnDefault: Option<string>, isIdentity: Value, isComputed: Value): (r: bool)
    ensures dialect == "postgresql" || dialect == "redshift" ==>
      (r <==> Present(columnDefault) && Contains(columnDefault.value, "nextval"))
    ensures dialect == "mysql" ==> (r <==> columnDefault.Some?)
    ensures dialect == "mssql" ==> (r <==> Truthy(isIdentity))
    ensures dialect == "oracle" ==> (r <==> Present(columnDefault) && Contains(Upper(columnDefault.value), "SEQ"))
    ensures dialect == "db2" ==> (r <==> isIdentity == StrValue("Y"))
    ensures dialect == "teradata" || dialect == "hana" || dialect == "bigquery" ==> (r <==> Present(columnDefault))
    ensures dialect !in AutoIncrementDialects ==> !r
  {
    if dialect == "postgresql" && Present(columnDefault) && Contains(columnDefault.value, "nextval") then true
    else if dialect == "mysql" && columnDefault.Some? then true
    else if dialect == "mssql" && Truthy(isIdentity) then true
    else if dialect == "oracle" && Present(columnDefault) && Contains(Upper(columnDefault.value), "SEQ") then true
    else if dialect == "db2" && isIdentity == StrValue("Y") then true
    else if dialect == "teradata" && Present(columnDefault) then true
    else if dialect == "hana" && Present(columnDefault) then true
    else if dialect == "snowflake" then false
    else if dialect == "redshift" && Present(columnDefault) && Contains(columnDefault.value, "nextval") then true
    else if dialect == "bigquery" && Present(columnDefault) then true
    else false
  }

  /** The computed-column flag never changes the answer. */
  lemma IsComputedIgnored(dialect: string, columnDefault: Option<string>, isIdentity: Value, a: Value, b: Value)
    ensures IsAutoIncrement(dialect, columnDefault, isIdentity, a) == IsAutoIncrement(dialect, columnDefault, isIdentity, b)
  {
  }

  // ---- get_auto_increment_from_ddl ----

  /** The phrase that must follow the column name, in upper case. */
  const Phrase := " INTEGER PRIMARY KEY AUTOINCREMENT"

  /** `\w`, restricted to ASCII. */
  predicate WordChar(c: char) {
    'a' <= c <= 'z' || 'A' <= c <= 'Z' || '0' <= c <= '9' || c == '_'
  }

  predicate AllWord(s: string) {
    forall k :: 0 <= k < |s| ==> WordChar(s[k])
  }

  /** The phrase occurs at `j`, ignoring the case of letters. */
  predicate PhraseAt(s: string, j: nat) {
    j + |Phrase| <= |s| && Upper(s[j..j + |Phrase|]) == Phrase
  }

  /** The regular expression `\w+ INTEGER PRIMARY KEY AUTOINCREMENT` matches
      starting at `i`, with a word run `s[i..j]`. */
  predicate RegexMatchAt(s: string, i: nat, j: nat) {
    i < j <= |s| && AllWord(s[i..j]) && PhraseAt(s, j)
  }

  /** The end of the run of word characters starting at `i`. */
  function RunEnd(s: string, i: nat): (j: nat)
    requires i <= |s|
    ensures i <= j <= |s| && AllWord(s[i..j]) && (j == |s| || !WordChar(s[j]))
    decreases |s| - i
  {
    if i < |s| && WordChar(s[i]) then
      var j := RunEnd(s, i + 1);
      assert s[i..j] == [s[i]] + s[i + 1..j];
      j
    else i
  }

  /** A match at `i` can only end its word run where the run itself ends,
      because the phrase begins with a space. */
  predicate MatchAt(s: string, i: nat) {
    i < |s| && WordChar(s[i]) && PhraseAt(s, RunEnd(s, i))
  }

  /** `MatchAt` is exactly where the regular expression matches. */
  lemma MatchAtIsRegexMatch(s: string, i: nat)
    ensures MatchAt(s, i) <==> exists j :: RegexMatchAt(s, i, j)
  {
    if i < |s| {
      var e := RunEnd(s, i);
      forall j: nat | RegexMatchAt(s, i, j) ensures j == e {
        assert UpperChar(s[j]) == Upper(s[j..j + |Phrase|])[0] == ' ';
        RunEndUnique(s, i, j);
      }
      if MatchAt(s, i) {
        assert RegexMatchAt(s, i, e);
      }
    }
  }

  /** A word run from `i` that stops at a non-word character or at the end
      is the run `RunEnd` finds. */
  lemma {:induction false} RunEndUnique(s: string, i: nat, j: nat)
    requires i < j <= |s| && AllWord(s[i..j]) && (j == |s| || !WordChar(s[j]))
    ensures RunEnd(s, i) == j
    decreases j - i
  {
    assert s[i..j][0] == s[i];
    if i + 1 < j {
      assert s[i + 1..j] == s[i..j][1..];
      RunEndUnique(s, i + 1, j);
    }
  }

  /** The leftmost match at or after `i`. */
  function SearchFrom(s: string, i: nat): (r: Option<nat>)
    requires i <= |s|
    ensures r.Some? ==> i <= r.value < |s| && MatchAt(s, r.value)
    ensures r.Some? ==> forall k :: i <= k < r.value ==> !MatchAt(s, k)
    ensures r.None? ==> forall k :: i <= k < |s| ==> !MatchAt(s, k)
    decreases |s| - i
  {
    if i == |s| then None
    else if MatchAt(s, i) then Some(i)
    else SearchFrom(s, i + 1)
  }

  /** `get_auto_increment_from_ddl`: the column name before the leftmost
      case-insensitive `<word> INTEGER PRIMARY KEY AUTOINCREMENT`, or `None`. */
  function GetAutoIncrementFromDdl(sqlDdl: string): (r: Option<string>)
    ensures r.None? <==> forall i :: 0 <= i < |sqlDdl| ==> !MatchAt(sqlDdl, i)
    ensures r.Some? ==> exists i :: (0 <= i < |sqlDdl| && MatchAt(sqlDdl, i) &&
      (forall k :: 0 <= k < i ==> !MatchAt(sqlDdl, k)) &&
      r.value == sqlDdl[i..RunEnd(sqlDdl, i)])
  {
    match SearchFrom(sqlDdl, 0)
    case None => None
    case Some(i) => Some(sqlDdl[i..RunEnd(sqlDdl, i)])
  }

  /** The name found starts at the leftmost match, is a non-empty word
      followed by the phrase, and is not the tail of a longer word. */
  lemma FoundNameShape(sqlDdl: string, i: nat)
    requires SearchFrom(sqlDdl, 0) == Some(i)
    ensures var name := GetAutoIncrementFromDdl(sqlDdl).value;
      i + |name| <= |sqlDdl| && sqlDdl[i..i + |name|] == name &&
      name != [] && AllWord(name) && PhraseAt(sqlDdl, i + |name|) &&
      (i == 0 || !WordChar(sqlDdl[i - 1]))
  {
    if i > 0 {
      WordBeforeMatch(sqlDdl, i);
    }
  }

  /** A word character just before a match starts a match of its own: its
      run reaches the same phrase. */
  lemma WordBeforeMatch(s: string, i: nat)
    requires 0 < i && MatchAt(s, i)
    ensures WordChar(s[i - 1]) ==> MatchAt(s, i - 1)
  {
    if WordChar(s[i - 1]) {
      assert RunEnd(s, i - 1) == RunEnd(s, i);
    }
  }
}
