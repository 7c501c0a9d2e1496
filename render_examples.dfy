/**
 * Two complete queries built node by node and rendered end to end: a select
 * over an INNER join with a WHERE filter, and the same query with a second
 * column, an ORDER BY and a setting. Each is stated as its exact text,
 * written clause by clause.
 */
module RenderExamples {
  import opened ClickHouseAst
  import opened ClickHouseToString
  import opened RenderProperties

  /** An unqualified column without an alias. */
  function Col(name: string): Expr
  {
    ColumnRef(ColumnReference(Column(name, Null, name), Null, Null))
  }

  /** The join condition (a) = (b). */
  function OnCondition(): Expr
  {
    BinaryLogical(Col("a"), "=", Col("b"))
  }

  /** The filter (a) > (0). */
  function WhereCondition(): Expr
  {
    BinaryLogical(Col("a"), ">", Constant("0"))
  }

  /** The join of t AS t1 with u AS u1, as the constructor stores it. */
  function InnerJoinNode(): JoinNode
  {
    JoinNode(TableReference("t", NonNull("t1")), TableReference("u", NonNull("u1")),
             NonNull(OnCondition()), Inner, JoinModifier.None)
  }

  /** SELECT a FROM t AS t1, the given join, WHERE (a) > (0). */
  function JoinQuery(j: JoinNode): Select
  {
    Select(SelectAll, [Col("a")], NonNull(TableRef(TableReference("t", NonNull("t1")))), [j],
           NonNull(WhereCondition()), [], Null, [], [])
  }

  /** The join query with a second column, ORDER BY a and join_use_nulls = 1. */
  function OrderedJoinQuery(j: JoinNode): Select
  {
    JoinQuery(j).(fetchColumns := [Col("a"), Col("b")], orderByClauses := [Col("a")],
                  settings := [Setting(JoinUseNulls, "1")])
  }

  /** The head of the join query: its columns and FROM clause. */
  lemma JoinQueryHead(j: JoinNode)
    ensures BeforeJoins(JoinQuery(j)) == "SELECT a" + " FROM t AS t1"
  {
    OneColumnText();
    assert "SELECT " + "" + "a" == "SELECT a";
    Concat2("SELECT a", " FROM ", "t" + " AS " + "t1");
  }

  /** A single column prints its name. */
  lemma OneColumnText()
    ensures RenderList([Col("a")]) == "a"
  {
    assert [Col("a")][..0] == [];
  }

  /** Two columns are separated by ", ". */
  lemma TwoColumnsText()
    ensures RenderList([Col("a"), Col("b")]) == "a, b"
  {
    var cols := [Col("a"), Col("b")];
    OneColumnText();
    assert cols[..|cols| - 1] == [Col("a")];
    assert "a" + ", " + "b" == "a, b";
  }

  /** The head of the round-trip query. */
  lemma OrderedJoinQueryHead(j: JoinNode)
    ensures BeforeJoins(OrderedJoinQuery(j)) == "SELECT a, b" + " FROM t AS t1"
  {
    TwoColumnsText();
    assert "SELECT " + "" + "a, b" == "SELECT a, b";
    Concat2("SELECT a, b", " FROM ", "t" + " AS " + "t1");
  }

  /** The INNER join's text up to its ON clause. */
  lemma InnerJoinHeader()
    ensures JoinHeader(Inner, JoinModifier.None) + " JOIN " + RenderTable(TableReference("u", NonNull("u1")))
         == " INNER JOIN u AS u1"
  {
    assert " " + "INNER" + "" + " JOIN " + ("u" + " AS " + "u1") == " INNER JOIN u AS u1";
  }

  /** The join's ON clause. */
  lemma OnText()
    ensures RenderOptional(" ON ", NonNull(OnCondition())) == " ON (a) = (b)"
  {
    assert " ON " + ("(" + "a" + ") " + "=" + " (" + "b" + ")") == " ON (a) = (b)";
  }

  /** The join list holding only the INNER join of u AS u1 on (a) = (b). */
  lemma InnerJoinText()
    ensures RenderJoins([InnerJoinNode()]) == " INNER JOIN u AS u1" + " ON (a) = (b)"
  {
    assert [InnerJoinNode()][..0] == [];
    InnerJoinHeader();
    OnText();
  }

  /** The WHERE clause. */
  lemma WhereText()
    ensures RenderOptional(" WHERE ", NonNull(WhereCondition())) == " WHERE (a) > (0)"
  {
    assert " WHERE " + ("(" + "a" + ") " + ">" + " (" + "0" + ")") == " WHERE (a) > (0)";
  }

  /** The ORDER BY clause over one column. */
  lemma OrderByText()
    ensures RenderListClause(" ORDER BY ", [Col("a")]) == " ORDER BY a"
  {
    OneColumnText();
    assert " ORDER BY " + "a" == " ORDER BY a";
  }

  /** The SETTINGS clause holding join_use_nulls = 1. */
  lemma SettingsText()
    ensures RenderSettingsClause([Setting(JoinUseNulls, "1")]) == " SETTINGS join_use_nulls = 1"
  {
    assert [Setting(JoinUseNulls, "1")][..0] == [];
    assert TextRepresentation(JoinUseNulls) == "join_use_nulls";
    assert " SETTINGS " + ("join_use_nulls" + " = " + "1") == " SETTINGS join_use_nulls = 1";
  }

  /** What follows the WHERE clause in the round-trip query. */
  lemma OrderedJoinQueryTail(j: JoinNode)
    ensures AfterWhere(OrderedJoinQuery(j)) == " ORDER BY a" + " SETTINGS join_use_nulls = 1"
  {
    OrderByText();
    SettingsText();
  }

  /**
   * A select's four parts, each known clause by clause, give the seven
   * clause texts side by side.
   */
  lemma Assembled(text: string, head: string, joins: string, where: string, tail: string,
                  a1: string, a2: string, a3: string, a4: string, a5: string, a6: string, a7: string)
    requires text == head + joins + where + tail
    requires head == a1 + a2 && joins == a3 + a4 && where == a5 && tail == a6 + a7
    ensures text == a1 + a2 + a3 + a4 + a5 + a6 + a7
  {
  }

  /** The join query's text, clause by clause. */
  lemma JoinQueryRendered()
    ensures Render(SelectStmt(JoinQuery(InnerJoinNode()), false))
         == "SELECT a" + " FROM t AS t1" + " INNER JOIN u AS u1" + " ON (a) = (b)" + " WHERE (a) > (0)"
  {
    var s := JoinQuery(InnerJoinNode());
    SelectLayout(s);
    JoinQueryHead(InnerJoinNode());
    InnerJoinText();
    WhereText();
    Assembled(RenderSelect(s, false), BeforeJoins(s), RenderJoins(s.joinClauses),
              RenderOptional(" WHERE ", s.whereClause), AfterWhere(s),
              "SELECT a", " FROM t AS t1", " INNER JOIN u AS u1", " ON (a) = (b)", " WHERE (a) > (0)", "", "");
  }

  /** The round-trip query's text, clause by clause. */
  lemma OrderedJoinQueryRendered()
    ensures Render(SelectStmt(OrderedJoinQuery(InnerJoinNode()), false))
         == "SELECT a, b" + " FROM t AS t1" + " INNER JOIN u AS u1" + " ON (a) = (b)"
            + " WHERE (a) > (0)" + " ORDER BY a" + " SETTINGS join_use_nulls = 1"
  {
    var s := OrderedJoinQuery(InnerJoinNode());
    SelectLayout(s);
    OrderedJoinQueryHead(InnerJoinNode());
    InnerJoinText();
    WhereText();
    OrderedJoinQueryTail(InnerJoinNode());
    Assembled(RenderSelect(s, false), BeforeJoins(s), RenderJoins(s.joinClauses),
              RenderOptional(" WHERE ", s.whereClause), AfterWhere(s),
              "SELECT a, b", " FROM t AS t1", " INNER JOIN u AS u1", " ON (a) = (b)", " WHERE (a) > (0)",
              " ORDER BY a", " SETTINGS join_use_nulls = 1");
  }

  /**
   * The end-to-end scenario: the join is built by the five-argument
   * constructor and the query is rendered by a fresh visitor.
   */
  method JoinQueryText() returns (text: string)
    ensures text == "SELECT a" + " FROM t AS t1" + " INNER JOIN u AS u1" + " ON (a) = (b)" + " WHERE (a) > (0)"
  {
    var join := new Join(TableReference("t", NonNull("t1")), TableReference("u", NonNull("u1")),
                         Inner, JoinModifier.None, NonNull(OnCondition()));
    var node := join.Snapshot();
    assert node == InnerJoinNode();
    text := AsString(SelectStmt(JoinQuery(node), false));
    JoinQueryRendered();
  }

  /** The round-trip query, rendered to exactly its own text. */
  method OrderedJoinQueryText() returns (text: string)
    ensures text == "SELECT a, b" + " FROM t AS t1" + " INNER JOIN u AS u1" + " ON (a) = (b)"
                    + " WHERE (a) > (0)" + " ORDER BY a" + " SETTINGS join_use_nulls = 1"
  {
    var join := new Join(TableReference("t", NonNull("t1")), TableReference("u", NonNull("u1")),
                         Inner, JoinModifier.None, NonNull(OnCondition()));
    var node := join.Snapshot();
    assert node == InnerJoinNode();
    text := AsString(SelectStmt(OrderedJoinQuery(node), false));
    OrderedJoinQueryRendered();
  }
}
