/**
 * Properties of the rendered SQL text: how the text of a select, a join, a
 * table or a column reference changes when one of its parts changes, and
 * which parts never show up in the text.
 */
module RenderProperties {
  import opened ClickHouseAst
  import opened ClickHouseToString

  // ---------------------------------------------------------------------------
  // Select
  // ---------------------------------------------------------------------------

  /** A nested select is the same text wrapped in parentheses. */
  lemma InnerSelectIsParenthesised(s: Select)
    ensures RenderSelect(s, true) == "(" + RenderSelect(s, false) + ")"
  {
    var o, c := SelectOption(s.fromOptions), SelectClauses(s);
    assert RenderSelect(s, true) == "(" + "SELECT " + o + c + ")";
    assert RenderSelect(s, false) == "" + "SELECT " + o + c + "";
    Wrapped("SELECT ", o, c);
  }

  /** The text opens with "(" exactly when the select is nested, and otherwise with "SELECT ". */
  lemma SelectOpening(s: Select, inner: bool)
    ensures |RenderSelect(s, false)| >= 7 && |RenderSelect(s, true)| == |RenderSelect(s, false)| + 2
    ensures RenderSelect(s, inner)[0] == '(' <==> inner
    ensures RenderSelect(s, false)[..7] == "SELECT "
  {
    var rest := SelectOption(s.fromOptions) + SelectClauses(s);
    var body := RenderSelect(s, false);
    assert body == "" + "SELECT " + SelectOption(s.fromOptions) + SelectClauses(s) + "";
    Unwrapped("SELECT ", SelectOption(s.fromOptions), SelectClauses(s));
    PrefixOf("SELECT ", rest);
    InnerSelectIsParenthesised(s);
  }

  /** DISTINCT goes right after "SELECT " and changes nothing else. */
  lemma DistinctFollowsSelectKeyword(s: Select)
    ensures var all := RenderSelect(s.(fromOptions := SelectAll), false);
      |all| >= 7 && all[..7] == "SELECT "
      && RenderSelect(s.(fromOptions := SelectDistinct), false) == "SELECT DISTINCT " + all[7..]
  {
    var c := SelectClauses(s);
    assert SelectClauses(s.(fromOptions := SelectAll)) == c;
    assert SelectClauses(s.(fromOptions := SelectDistinct)) == c;
    Unwrapped("SELECT ", "", c);
    Unwrapped("SELECT ", "DISTINCT ", c);
    PrefixOf("SELECT ", "" + c);
    DistinctKeyword(c);
  }

  /** "SELECT " followed by "DISTINCT " spells "SELECT DISTINCT ". */
  lemma DistinctKeyword(c: string)
    ensures "SELECT " + ("DISTINCT " + c) == "SELECT DISTINCT " + ("" + c)
  {
    assert "SELECT " + "DISTINCT " == "SELECT DISTINCT ";
  }

  /** Two concatenations that differ only in parentheses and the empty strings around them. */
  lemma Wrapped(a: string, b: string, c: string)
    ensures "(" + a + b + c + ")" == "(" + ("" + a + b + c + "") + ")"
  {
  }

  /** Empty strings around a concatenation change nothing. */
  lemma Unwrapped(a: string, b: string, c: string)
    ensures "" + a + b + c + "" == a + (b + c)
  {
  }

  /** The prefix of a concatenation. */
  lemma PrefixOf(a: string, b: string)
    ensures (a + b)[..|a|] == a && (a + b)[|a|..] == b
  {
  }

  /** Appending seven empty strings changes nothing. */
  lemma AppendEmpties(a: string)
    ensures a + "" + "" + "" + "" + "" + "" + "" == a
  {
  }

  /** Without any optional clause a select is "SELECT ", the option and the columns. */
  lemma SelectWithoutClauses(s: Select)
    requires s.fromClause.Null? && s.joinClauses == [] && s.whereClause.Null?
    requires s.groupByClause == [] && s.havingClause.Null? && s.orderByClauses == []
    requires s.settings == []
    ensures RenderSelect(s, false) == "SELECT " + SelectOption(s.fromOptions) + RenderList(s.fetchColumns)
  {
    var cols := RenderList(s.fetchColumns);
    assert SelectClauses(s) == cols + "" + "" + "" + "" + "" + "" + "";
    AppendEmpties(cols);
    Unwrapped("SELECT ", SelectOption(s.fromOptions), cols);
  }

  /**
   * Settings come last: adding one more setting appends it, after
   * " SETTINGS " for the first one and after ", " for the others.
   */
  lemma SettingsComeLast(s: Select, st: Setting)
    ensures RenderSelect(s.(settings := s.settings + [st]), false)
      == RenderSelect(s, false) + (if s.settings == [] then " SETTINGS " else ", ") + RenderSetting(st)
  {
    var s' := s.(settings := s.settings + [st]);
    var sep := if s.settings == [] then " SETTINGS " else ", ";
    SettingsClauseAppend(s.settings, st);
    var before := RenderList(s.fetchColumns) + RenderOptional(" FROM ", s.fromClause)
      + RenderJoins(s.joinClauses) + RenderOptional(" WHERE ", s.whereClause)
      + RenderListClause(" GROUP BY ", s.groupByClause) + RenderOptional(" HAVING ", s.havingClause)
      + RenderListClause(" ORDER BY ", s.orderByClauses);
    assert SelectClauses(s) == before + RenderSettingsClause(s.settings);
    assert SelectClauses(s') == before + RenderSettingsClause(s'.settings);
    Extended("SELECT ", SelectOption(s.fromOptions), before, RenderSettingsClause(s.settings), sep + RenderSetting(st));
    Concat2(RenderSelect(s, false), sep, RenderSetting(st));
  }

  /** The settings clause with one more setting. */
  lemma SettingsClauseAppend(ss: seq<Setting>, st: Setting)
    ensures RenderSettingsClause(ss + [st])
      == RenderSettingsClause(ss) + ((if ss == [] then " SETTINGS " else ", ") + RenderSetting(st))
  {
    RenderSettingsAppend(ss, st);
    if ss != [] {
      Regrouped(" SETTINGS ", RenderSettings(ss), ", ", RenderSetting(st));
    }
  }

  /** The settings list with one more setting. */
  lemma RenderSettingsAppend(ss: seq<Setting>, st: Setting)
    ensures RenderSettings(ss + [st]) == if ss == [] then RenderSetting(st) else RenderSettings(ss) + ", " + RenderSetting(st)
  {
    var ss' := ss + [st];
    assert ss'[..|ss'| - 1] == ss;
  }

  /** Regrouping four pieces. */
  lemma Regrouped(a: string, b: string, c: string, d: string)
    ensures a + (b + c + d) == (a + b) + (c + d)
  {
  }

  /** Extending the last piece of a select's text extends the text. */
  lemma Extended(keyword: string, option: string, before: string, last: string, more: string)
    ensures "" + keyword + option + (before + (last + more)) + ""
      == ("" + keyword + option + (before + last) + "") + more
  {
  }

  /**
   * Joins follow one another in order: when no clause after the joins is
   * present, adding a join appends its text.
   */
  lemma JoinsComeInOrder(s: Select, j: JoinNode)
    requires s.whereClause.Null? && s.groupByClause == [] && s.havingClause.Null?
    requires s.orderByClauses == [] && s.settings == []
    ensures RenderSelect(s.(joinClauses := s.joinClauses + [j]), false) == RenderSelect(s, false) + RenderJoin(j)
  {
    var js := s.joinClauses + [j];
    assert js[..|js| - 1] == s.joinClauses && js[|js| - 1] == j;
    assert RenderJoins(js) == RenderJoins(s.joinClauses) + RenderJoin(j);
    ExtendedJoins("SELECT ", SelectOption(s.fromOptions), RenderList(s.fetchColumns),
      RenderOptional(" FROM ", s.fromClause), RenderJoins(s.joinClauses), RenderJoin(j),
      RenderOptional(" WHERE ", s.whereClause), RenderListClause(" GROUP BY ", s.groupByClause),
      RenderOptional(" HAVING ", s.havingClause), RenderListClause(" ORDER BY ", s.orderByClauses),
      RenderSettingsClause(s.settings));
  }

  /** Extending the joins' text, with every later clause empty, extends the text. */
  lemma ExtendedJoins(keyword: string, option: string, columns: string, from: string,
                      joins: string, more: string, where: string, groupBy: string,
                      having: string, orderBy: string, settings: string)
    requires where == "" && groupBy == "" && having == "" && orderBy == "" && settings == ""
    ensures "" + keyword + option + (columns + from + (joins + more) + where + groupBy + having + orderBy + settings) + ""
      == ("" + keyword + option + (columns + from + joins + where + groupBy + having + orderBy + settings) + "") + more
  {
  }

  /**
   * The WHERE clause appears only when present: with no later clause, setting
   * it appends " WHERE " and the condition.
   */
  lemma WhereClauseAppended(s: Select, w: Expr)
    requires s.groupByClause == [] && s.havingClause.Null? && s.orderByClauses == [] && s.settings == []
    ensures RenderSelect(s.(whereClause := NonNull(w)), false)
      == RenderSelect(s.(whereClause := Null), false) + " WHERE " + Render(w)
  {
    var sn, sw := s.(whereClause := Null), s.(whereClause := NonNull(w));
    assert RenderOptional(" WHERE ", sw.whereClause) == " WHERE " + Render(w);
    assert RenderOptional(" WHERE ", sn.whereClause) == "";
    ExtendedWhere("SELECT ", SelectOption(s.fromOptions), RenderList(s.fetchColumns),
      RenderOptional(" FROM ", s.fromClause), RenderJoins(s.joinClauses), " WHERE " + Render(w),
      RenderListClause(" GROUP BY ", s.groupByClause), RenderOptional(" HAVING ", s.havingClause),
      RenderListClause(" ORDER BY ", s.orderByClauses), RenderSettingsClause(s.settings));
    Concat2(RenderSelect(sn, false), " WHERE ", Render(w));
  }

  /** Filling the empty WHERE slot, with every later clause empty, extends the text. */
  lemma ExtendedWhere(keyword: string, option: string, columns: string, from: string,
                      joins: string, where: string, groupBy: string,
                      having: string, orderBy: string, settings: string)
    requires groupBy == "" && having == "" && orderBy == "" && settings == ""
    ensures "" + keyword + option + (columns + from + joins + where + groupBy + having + orderBy + settings) + ""
      == ("" + keyword + option + (columns + from + joins + "" + groupBy + having + orderBy + settings) + "") + where
  {
  }

  /** The text of a top-level select up to its joins. */
  function BeforeJoins(s: Select): string
  {
    "SELECT " + SelectOption(s.fromOptions) + RenderList(s.fetchColumns) + RenderOptional(" FROM ", s.fromClause)
  }

  /** The text of a select after its WHERE clause: GROUP BY through SETTINGS. */
  function AfterWhere(s: Select): string
  {
    RenderListClause(" GROUP BY ", s.groupByClause) + RenderOptional(" HAVING ", s.havingClause)
    + RenderListClause(" ORDER BY ", s.orderByClauses) + RenderSettingsClause(s.settings)
  }

  /** A top-level select reads: head, joins, WHERE, then GROUP BY through SETTINGS. */
  lemma SelectLayout(s: Select)
    ensures RenderSelect(s, false)
      == BeforeJoins(s) + RenderJoins(s.joinClauses) + RenderOptional(" WHERE ", s.whereClause) + AfterWhere(s)
  {
    Grouped("SELECT ", SelectOption(s.fromOptions), RenderList(s.fetchColumns),
      RenderOptional(" FROM ", s.fromClause), RenderJoins(s.joinClauses),
      RenderOptional(" WHERE ", s.whereClause), RenderListClause(" GROUP BY ", s.groupByClause),
      RenderOptional(" HAVING ", s.havingClause), RenderListClause(" ORDER BY ", s.orderByClauses),
      RenderSettingsClause(s.settings));
  }

  /** The select's ten pieces, grouped into head, joins, WHERE and tail. */
  lemma Grouped(keyword: string, option: string, columns: string, from: string, joins: string,
                where: string, groupBy: string, having: string, orderBy: string, settings: string)
    ensures "" + keyword + option + (columns + from + joins + where + groupBy + having + orderBy + settings) + ""
      == (keyword + option + columns + from) + joins + where + (groupBy + having + orderBy + settings)
  {
  }

  /**
   * Adding a join, whatever the other clauses hold, puts its text right
   * after the existing joins and leaves the head and WHERE through SETTINGS
   * as they were.
   */
  lemma JoinInserted(s: Select, j: JoinNode)
    ensures RenderSelect(s.(joinClauses := s.joinClauses + [j]), false)
      == BeforeJoins(s) + (RenderJoins(s.joinClauses) + RenderJoin(j)) + RenderOptional(" WHERE ", s.whereClause) + AfterWhere(s)
  {
    var t := s.(joinClauses := s.joinClauses + [j]);
    assert t.joinClauses[..|t.joinClauses| - 1] == s.joinClauses;
    SelectLayout(t);
  }

  /**
   * Setting the WHERE condition, whatever the other clauses hold, places
   * " WHERE " and the condition between the joins and GROUP BY.
   */
  lemma WhereSet(s: Select, w: Expr)
    ensures RenderSelect(s.(whereClause := NonNull(w)), false)
      == BeforeJoins(s) + RenderJoins(s.joinClauses) + (" WHERE " + Render(w)) + AfterWhere(s)
  {
    SelectLayout(s.(whereClause := NonNull(w)));
  }

  /** Rendering the column list one more column at a time. */
  lemma RenderListAppend(es: seq<Expr>, e: Expr)
    ensures RenderList(es + [e]) == RenderList(es) + (if es == [] then "" else ", ") + Render(e)
  {
    assert (es + [e])[..|es|] == es;
  }

  // ---------------------------------------------------------------------------
  // Joins
  // ---------------------------------------------------------------------------

  /** The left table of a join never shows up in its text. */
  lemma JoinLeftTableNotRendered(j: JoinNode, other: TableReference)
    ensures RenderJoin(j.(leftTable := other)) == RenderJoin(j)
  {
  }

  /** The ON clause comes last, after " ON ", and only when it is not null. */
  lemma OnClauseComesLast(j: JoinNode, on: Expr)
    ensures RenderJoin(j.(onClause := NonNull(on))) == RenderJoin(j.(onClause := Null)) + " ON " + Render(on)
    ensures RenderJoin(j.(onClause := Null)) == JoinHeader(j.joinType, j.modifier) + " JOIN " + RenderTable(j.rightTable)
  {
  }

  /**
   * Reads the join type and modifier back from the text before " JOIN ":
   * the second character names the type (the modifier keywords start with
   * other letters), and what follows the type part names the modifier.
   */
  function ParseJoinHeader(h: string): (r: (JoinType, JoinModifier))
  {
    var t := ParseJoinType(h);
    var n := |JoinTypePart(t)|;
    (t, ParseJoinModifier(if n <= |h| then h[n..] else ""))
  }

  /** The join type whose part opens `h`, read from its second character. */
  function ParseJoinType(h: string): JoinType
  {
    if |h| < 2 then JoinType.None
    else if h[1] == 'I' then Inner
    else if h[1] == 'C' then Cross
    else if h[1] == 'L' then Left
    else if h[1] == 'R' then Right
    else if h[1] == 'F' then Full
    else JoinType.None
  }

  /** The join modifier whose part is `p`, read from its second to fourth characters. */
  function ParseJoinModifier(p: string): JoinModifier
  {
    if |p| < 4 then JoinModifier.None
    else if p[1] == 'O' then Outer
    else if p[2] == 'S' then Asof
    else if p[2] == 'L' then All
    else if p[3] == 'T' then Anti
    else Any
  }

  /** The join type is read back from a header that starts with its part. */
  lemma JoinTypeRoundTrip(t: JoinType, m: JoinModifier)
    ensures ParseJoinType(JoinTypePart(t) + JoinModifierPart(m)) == t
  {
    var tp, mp := JoinTypePart(t), JoinModifierPart(m);
    if t == JoinType.None {
      assert tp + mp == mp;
    } else {
      assert (tp + mp)[1] == tp[1];
    }
  }

  /** The join modifier is read back from its part. */
  lemma JoinModifierRoundTrip(m: JoinModifier)
    ensures ParseJoinModifier(JoinModifierPart(m)) == m
  {
  }

  /** The text before " JOIN " determines the join type and modifier. */
  lemma JoinHeaderRoundTrip(t: JoinType, m: JoinModifier)
    ensures ParseJoinHeader(JoinHeader(t, m)) == (t, m)
  {
    JoinTypeRoundTrip(t, m);
    JoinModifierRoundTrip(m);
    PrefixOf(JoinTypePart(t), JoinModifierPart(m));
  }

  /** Distinct (type, modifier) pairs give distinct text before " JOIN ". */
  lemma JoinHeaderInjective(t1: JoinType, m1: JoinModifier, t2: JoinType, m2: JoinModifier)
    requires JoinHeader(t1, m1) == JoinHeader(t2, m2)
    ensures t1 == t2 && m1 == m2
  {
    JoinHeaderRoundTrip(t1, m1);
    JoinHeaderRoundTrip(t2, m2);
  }

  // ---------------------------------------------------------------------------
  // Tables and columns
  // ---------------------------------------------------------------------------

  /** A table's alias is appended after " AS "; the catalog name always comes first. */
  lemma TableAliasAppended(t: TableReference, a: string)
    ensures RenderTable(t.(alias := NonNull(a))) == RenderTable(t.(alias := Null)) + " AS " + a
    ensures RenderTable(t.(alias := Null)) == t.tableName
  {
    Concat2(t.tableName, " AS ", a);
  }

  /**
   * Once a table alias is set, the column's own table and qualified name no
   * longer matter: only the alias and the column name are printed.
   */
  lemma ColumnTableAliasWins(c: ColumnReference, other: Column)
    requires c.tableAlias.NonNull? && other.name == c.column.name
    ensures RenderColumn(c.(column := other)) == RenderColumn(c)
  {
  }

  /** A column alias is appended after " AS ". */
  lemma ColumnAliasAppended(c: ColumnReference, a: string)
    ensures RenderColumn(c.(alias := NonNull(a))) == RenderColumn(c.(alias := Null)) + " AS " + a
  {
  }

  // ---------------------------------------------------------------------------
  // Join objects
  // ---------------------------------------------------------------------------

  /** A CROSS join built with an ON clause prints no ON clause and no modifier. */
  method CrossJoinText(left: TableReference, right: TableReference, m: JoinModifier, on: Nullable<Expr>)
    returns (text: string)
    ensures text == " CROSS JOIN " + RenderTable(right)
  {
    var join := new Join(left, right, Cross, m, on);
    var visitor := new ToStringVisitor();
    visitor.VisitJoin(join.Snapshot());
    text := visitor.Get();
    assert " CROSS" + "" + " JOIN " == " CROSS JOIN ";
  }

  /**
   * Setting the ON clause after construction is not checked against the join
   * type, so even a CROSS join prints it.
   */
  method JoinTextAfterSetOnClause(left: TableReference, right: TableReference,
                                  t: JoinType, m: JoinModifier, on: Expr)
    returns (text: string)
    ensures text == JoinHeader(t, ModifierBasedOnType(t, m)) + " JOIN " + RenderTable(right) + " ON " + Render(on)
  {
    var join := new Join.WithoutOn(left, right, t, m);
    join.SetOnClause(NonNull(on));
    var visitor := new ToStringVisitor();
    visitor.VisitJoin(join.Snapshot());
    text := visitor.Get();
    Concat2(JoinHeader(t, ModifierBasedOnType(t, m)) + " JOIN " + RenderTable(right), " ON ", Render(on));
  }

  // ---------------------------------------------------------------------------
  // asString
  // ---------------------------------------------------------------------------

  /** Each call of asString uses a fresh visitor, so rendering a tree twice gives the same text. */
  method AsStringTwice(e: Expr) returns (first: string, second: string)
    ensures first == second == Render(e)
  {
    first := AsString(e);
    second := AsString(e);
  }
}
