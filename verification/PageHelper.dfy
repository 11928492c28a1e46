/** The paging helper's count query: what the text it sends to the database answers. */
module PageHelper {
  import opened SqlAst
  import opened SqlCountMeaning
  import opened SqlParser
  import opened SqlSemantics

  /** getCountSql. A text that ends in FOR UPDATE is refused and another statement than a SELECT is an
      error; what cannot be parsed is wrapped as it stands. For a SELECT the text is that of a statement
      with the same parameters in the same order, which answers the number of its rows on every database,
      as long as nested LIMITs keep their rows and aggregates and LIMIT are visible to the guard. */
  method GetCountSql(sqlParser: SqlParser, sql: string) returns (r: CountSql)
    requires sqlParser.Valid()
    modifies sqlParser
    ensures sqlParser.Valid()
    ensures r == ForUpdateRefused <==> exists i: nat :: ForUpdateAt(sql, i)
    ensures r != ForUpdateRefused && sqlParser.parse(sql).Unparsable? ==>
              r == Sql("select count(0) from (" + sql + ") tmp_count")
    ensures r == NotASelect <==> r != ForUpdateRefused && sqlParser.parse(sql).OtherStatement?
    ensures r != ForUpdateRefused && sqlParser.parse(sql).Query? ==>
              exists c :: r == Sql(sqlParser.toText(c)) && CountsFor(c, sqlParser.parse(sql).select)
  {
    r := sqlParser.GetSmartCountSql(sql);
    EndsForUpdateExactlyWhen(sql);
    if !EndsForUpdate(sql) && sqlParser.parse(sql).Query? {
      SmartCountCounts(sqlParser.parse(sql).select);
    }
  }

  /** The statement c takes the parameters of s, and answers the number of its rows. */
  ghost predicate CountsFor(c: Select, s: Select) {
    && SelectParams(c) == SelectParams(s)
    && (SafeSelect(s) ==>
          forall db :: Lawful(db) && (Replaced(s.selectBody) ==> Visible(db.aggregates, s.selectBody)) ==>
            SelectRows(db, c) == [[Cell("count(0)", |SelectRows(db, s)|)]])
  }

  lemma SmartCountCounts(s: Select)
    ensures CountsFor(SmartCount(s), s)
  {
    PlaceholdersPreserved(s);
    if SafeSelect(s) {
      forall db | Lawful(db) && (Replaced(s.selectBody) ==> Visible(db.aggregates, s.selectBody))
        ensures SelectRows(db, SmartCount(s)) == [[Cell("count(0)", |SelectRows(db, s)|)]]
      {
        CountPreserved(db, s);
      }
    }
  }

  /** The text computed afresh is that of a statement that counts: what a caller is told whether or not
      it comes from the cache. */
  lemma FreshTextCounts(sqlParser: SqlParser, sql: string, s: Select)
    requires sqlParser.parse(sql) == Query(s) && !exists i: nat :: ForUpdateAt(sql, i)
    ensures exists c ::
              && sqlParser.Fresh(sql) == Sql(sqlParser.toText(c))
              && SelectParams(c) == SelectParams(s)
              && (SafeSelect(s) ==>
                    forall db :: Lawful(db) && (Replaced(s.selectBody) ==> Visible(db.aggregates, s.selectBody)) ==>
                      SelectRows(db, c) == Answer(|SelectRows(db, s)|))
  {
    EndsForUpdateExactlyWhen(sql);
    SmartCountCounts(s);
    assert sqlParser.Fresh(sql) == Sql(sqlParser.toText(SmartCount(s))) && CountsFor(SmartCount(s), s);
  }
}
