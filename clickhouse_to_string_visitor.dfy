/**
 * The SQL text renderer. `Render` and its companions give the canonical text
 * of each node as pure functions; `ToStringVisitor` appends that text to its
 * buffer step by step, as the visitor does, and each of its methods is proved
 * to append exactly what the corresponding function gives.
 *
 * Lists of expressions (select columns, GROUP BY, ORDER BY) are rendered by
 * the visitor's base class, which is not part of this model; they are taken
 * to be separated by ", ".
 */
module ClickHouseToString {
  import opened ClickHouseAst

  // ---------------------------------------------------------------------------
  // Canonical text
  // ---------------------------------------------------------------------------

  /** The keyword of a join type other than NONE. */
  function JoinTypeName(t: JoinType): string
    requires t != JoinType.None
  {
    match t
    case Cross => "CROSS"
    case Inner => "INNER"
    case Left => "LEFT"
    case Right => "RIGHT"
    case Full => "FULL"
  }

  /** The keyword of a join modifier other than NONE. */
  function JoinModifierName(m: JoinModifier): string
    requires m != JoinModifier.None
  {
    match m
    case Outer => "OUTER"
    case Anti => "ANTI"
    case Any => "ANY"
    case All => "ALL"
    case Asof => "ASOF"
  }

  /** A space and the type keyword, or nothing for NONE. */
  function JoinTypePart(t: JoinType): string
  {
    if t != JoinType.None then " " + JoinTypeName(t) else ""
  }

  /** A space and the modifier keyword, or nothing for NONE. */
  function JoinModifierPart(m: JoinModifier): string
  {
    if m != JoinModifier.None then " " + JoinModifierName(m) else ""
  }

  /** The text before " JOIN ". */
  function JoinHeader(t: JoinType, m: JoinModifier): string
  {
    JoinTypePart(t) + JoinModifierPart(m)
  }

  /** Appending two pieces one by one appends their concatenation. */
  lemma Concat2(s: string, a1: string, a2: string)
    ensures s + a1 + a2 == s + (a1 + a2)
  {
  }

  /** Appending three pieces one by one appends their concatenation. */
  lemma Concat3(s: string, a1: string, a2: string, a3: string)
    ensures s + a1 + a2 + a3 == s + (a1 + a2 + a3)
  {
  }

  /** Appending four pieces one by one appends their concatenation. */
  lemma Concat4(s: string, a1: string, a2: string, a3: string, a4: string)
    ensures s + a1 + a2 + a3 + a4 == s + (a1 + a2 + a3 + a4)
  {
  }

  /** Appending five pieces one by one appends their concatenation. */
  lemma Concat5(s: string, a1: string, a2: string, a3: string, a4: string, a5: string)
    ensures s + a1 + a2 + a3 + a4 + a5 == s + (a1 + a2 + a3 + a4 + a5)
  {
  }

  /** Appending six pieces one by one appends their concatenation. */
  lemma Concat6(s: string, a1: string, a2: string, a3: string, a4: string, a5: string, a6: string)
    ensures s + a1 + a2 + a3 + a4 + a5 + a6 == s + (a1 + a2 + a3 + a4 + a5 + a6)
  {
  }

  /** Appending seven pieces one by one appends their concatenation. */
  lemma Concat7(s: string, a1: string, a2: string, a3: string, a4: string, a5: string, a6: string, a7: string)
    ensures s + a1 + a2 + a3 + a4 + a5 + a6 + a7 == s + (a1 + a2 + a3 + a4 + a5 + a6 + a7)
  {
  }

  /** Appending eight pieces one by one appends their concatenation. */
  lemma Concat8(s: string, a1: string, a2: string, a3: string, a4: string,
                a5: string, a6: string, a7: string, a8: string)
    ensures s + a1 + a2 + a3 + a4 + a5 + a6 + a7 + a8 == s + (a1 + a2 + a3 + a4 + a5 + a6 + a7 + a8)
  {
  }

  /** A table reference: the catalog name, never the alias, then " AS " and the alias if any. */
  function RenderTable(t: TableReference): string
  {
    t.tableName + (match t.alias case Null => "" case NonNull(a) => " AS " + a)
  }

  /** A column reference, qualified by the table alias when one is set. */
  function RenderColumn(c: ColumnReference): string
  {
    (if c.tableAlias.NonNull? then c.tableAlias.value + "." + c.column.name
     else if c.column.table.Null? then c.column.name
     else c.column.fullQualifiedName)
    + (match c.alias case Null => "" case NonNull(a) => " AS " + a)
  }

  /** A setting: its SQL name, " = " and its value. */
  function RenderSetting(s: Setting): string
  {
    TextRepresentation(s.key) + " = " + s.value
  }

  /** Settings separated by ", ". */
  function RenderSettings(ss: seq<Setting>): string
  {
    if |ss| == 0 then ""
    else RenderSettings(ss[..|ss| - 1]) + (if |ss| > 1 then ", " else "") + RenderSetting(ss[|ss| - 1])
  }

  /** Extending a prefix of the settings by one more setting. */
  lemma RenderSettingsPrefix(ss: seq<Setting>, k: nat)
    requires k < |ss|
    ensures RenderSettings(ss[..k + 1])
      == RenderSettings(ss[..k]) + (if k > 0 then ", " else "") + RenderSetting(ss[k])
  {
    assert ss[..k + 1][..k] == ss[..k];
  }

  /** The canonical text of an expression. */
  function Render(e: Expr): string
    decreases e
  {
    match e
    case BinaryLogical(l, op, r) => "(" + Render(l) + ") " + op + " (" + Render(r) + ")"
    case SettingExpr(s) => RenderSetting(s)
    case UnaryPrefix(op, x) => op + " (" + Render(x) + ")"
    case UnaryPostfix(x, op) => "(" + Render(x) + ")" + " " + op
    case Constant(text) => text
    case SelectStmt(s, inner) => RenderSelect(s, inner)
    case TableRef(t) => RenderTable(t)
    case JoinExpr(j) => RenderJoin(j)
    case Aggregate(f, x) => f + "(" + Render(x) + ")"
    case Cast(x, ty) => "CAST(" + Render(x) + " AS " + ty + ")"
    case ColumnRef(c) => RenderColumn(c)
    case BinaryFunction(f, l, r) => f + "(" + Render(l) + "," + Render(r) + ")"
    case Alias(x, a) => Render(x) + " AS `" + a + "`"
  }

  /** Expressions separated by ", ". */
  function RenderList(es: seq<Expr>): string
    decreases es, 0
  {
    if |es| == 0 then ""
    else RenderList(es[..|es| - 1]) + (if |es| > 1 then ", " else "") + Render(es[|es| - 1])
  }

  /** Extending a prefix of a list by one more expression. */
  lemma RenderListPrefix(es: seq<Expr>, k: nat)
    requires k < |es|
    ensures RenderList(es[..k + 1]) == RenderList(es[..k]) + (if k > 0 then ", " else "") + Render(es[k])
  {
    assert es[..k + 1][..k] == es[..k];
  }

  /** `keyword` and the expression, or nothing when it is null. */
  function RenderOptional(keyword: string, n: Nullable<Expr>): string
    decreases n
  {
    match n
    case Null => ""
    case NonNull(x) => keyword + Render(x)
  }

  /** `keyword` and the list, or nothing when the list is empty. */
  function RenderListClause(keyword: string, es: seq<Expr>): string
    decreases es, 1
  {
    if |es| == 0 then "" else keyword + RenderList(es)
  }

  /** A join: header, " JOIN ", the right table and the ON clause if any; the left table is not shown. */
  function RenderJoin(j: JoinNode): string
    decreases j
  {
    JoinHeader(j.joinType, j.modifier) + " JOIN " + RenderTable(j.rightTable)
    + RenderOptional(" ON ", j.onClause)
  }

  /** Joins one after the other. */
  function RenderJoins(js: seq<JoinNode>): string
    decreases js
  {
    if |js| == 0 then "" else RenderJoins(js[..|js| - 1]) + RenderJoin(js[|js| - 1])
  }

  /** Extending a prefix of the joins by one more join. */
  lemma RenderJoinsPrefix(js: seq<JoinNode>, k: nat)
    requires k < |js|
    ensures RenderJoins(js[..k + 1]) == RenderJoins(js[..k]) + RenderJoin(js[k])
  {
    assert js[..k + 1][..k] == js[..k];
  }

  /** The settings clause, or nothing when there are no settings. */
  function RenderSettingsClause(ss: seq<Setting>): string
  {
    if |ss| == 0 then "" else " SETTINGS " + RenderSettings(ss)
  }

  /** "DISTINCT " for a DISTINCT select, nothing for ALL. */
  function SelectOption(o: SelectType): string
  {
    match o
    case SelectDistinct => "DISTINCT "
    case SelectAll => ""
  }

  /** Everything after the select option, in the fixed clause order. */
  function SelectClauses(s: Select): string
    decreases s, 0
  {
    RenderList(s.fetchColumns)
    + RenderOptional(" FROM ", s.fromClause)
    + RenderJoins(s.joinClauses)
    + RenderOptional(" WHERE ", s.whereClause)
    + RenderListClause(" GROUP BY ", s.groupByClause)
    + RenderOptional(" HAVING ", s.havingClause)
    + RenderListClause(" ORDER BY ", s.orderByClauses)
    + RenderSettingsClause(s.settings)
  }

  /** A select, in parentheses when nested. */
  function RenderSelect(s: Select, inner: bool): string
    decreases s, 1
  {
    (if inner then "(" else "") + "SELECT " + SelectOption(s.fromOptions) + SelectClauses(s)
    + (if inner then ")" else "")
  }

  // ---------------------------------------------------------------------------
  // The visitor
  // ---------------------------------------------------------------------------

  /** A visitor that appends the text of the nodes it visits to its buffer. */
  class ToStringVisitor {
    var sb: string

    constructor ()
      ensures sb == ""
    {
      sb := "";
    }

    /** The buffer's contents. */
    function Get(): string
      reads this
    {
      sb
    }

    /** Appends the text of any expression, dispatching on its variant. */
    method Visit(e: Expr)
      modifies this
      ensures sb == old(sb) + Render(e)
      decreases e, 1
    {
      match e
      case BinaryLogical(_, _, _) => VisitBinaryLogical(e);
      case SettingExpr(s) => VisitSetting(s);
      case UnaryPrefix(_, _) => VisitUnaryPrefix(e);
      case UnaryPostfix(_, _) => VisitUnaryPostfix(e);
      case Constant(text) => sb := sb + text;
      case SelectStmt(s, inner) => VisitSelect(s, inner);
      case TableRef(t) => VisitTable(t);
      case JoinExpr(j) => VisitJoin(j);
      case Aggregate(_, _) => VisitAggregate(e);
      case Cast(_, _) => VisitCast(e);
      case ColumnRef(c) => VisitColumn(c);
      case BinaryFunction(_, _, _) => VisitBinaryFunction(e);
      case Alias(_, _) => VisitAlias(e);
    }

    /** Appends "(" left ") " op " (" right ")". */
    method VisitBinaryLogical(e: Expr)
      requires e.BinaryLogical?
      modifies this
      ensures sb == old(sb) + Render(e)
      decreases e, 0
    {
      ghost var start := sb;
      sb := sb + "(";
      Visit(e.left);
      sb := sb + ") ";
      sb := sb + e.op;
      sb := sb + " (";
      Visit(e.right);
      sb := sb + ")";
      Concat7(start, "(", Render(e.left), ") ", e.op, " (", Render(e.right), ")");
    }

    /** Appends op " (" operand ")". */
    method VisitUnaryPrefix(e: Expr)
      requires e.UnaryPrefix?
      modifies this
      ensures sb == old(sb) + Render(e)
      decreases e, 0
    {
      ghost var start := sb;
      sb := sb + e.prefixOp;
      sb := sb + " (";
      Visit(e.operand);
      sb := sb + ")";
      Concat4(start, e.prefixOp, " (", Render(e.operand), ")");
    }

    /** Appends "(" operand ") " op. */
    method VisitUnaryPostfix(e: Expr)
      requires e.UnaryPostfix?
      modifies this
      ensures sb == old(sb) + Render(e)
      decreases e, 0
    {
      ghost var start := sb;
      sb := sb + "(";
      Visit(e.operand);
      sb := sb + ")";
      sb := sb + " ";
      sb := sb + e.postfixOp;
      Concat5(start, "(", Render(e.operand), ")", " ", e.postfixOp);
    }

    /** Appends func "(" operand ")". */
    method VisitAggregate(e: Expr)
      requires e.Aggregate?
      modifies this
      ensures sb == old(sb) + Render(e)
      decreases e, 0
    {
      ghost var start := sb;
      sb := sb + e.func;
      sb := sb + "(";
      Visit(e.operand);
      sb := sb + ")";
      Concat4(start, e.func, "(", Render(e.operand), ")");
    }

    /** Appends "CAST(" operand " AS " type ")". */
    method VisitCast(e: Expr)
      requires e.Cast?
      modifies this
      ensures sb == old(sb) + Render(e)
      decreases e, 0
    {
      ghost var start := sb;
      sb := sb + "CAST(";
      Visit(e.operand);
      sb := sb + " AS ";
      sb := sb + e.targetType;
      sb := sb + ")";
      Concat5(start, "CAST(", Render(e.operand), " AS ", e.targetType, ")");
    }

    /** Appends func "(" left "," right ")". */
    method VisitBinaryFunction(e: Expr)
      requires e.BinaryFunction?
      modifies this
      ensures sb == old(sb) + Render(e)
      decreases e, 0
    {
      ghost var start := sb;
      sb := sb + e.func;
      sb := sb + "(";
      Visit(e.left);
      sb := sb + ",";
      Visit(e.right);
      sb := sb + ")";
      Concat6(start, e.func, "(", Render(e.left), ",", Render(e.right), ")");
    }

    /** Appends operand " AS `" alias "`". */
    method VisitAlias(e: Expr)
      requires e.Alias?
      modifies this
      ensures sb == old(sb) + Render(e)
      decreases e, 0
    {
      ghost var start := sb;
      Visit(e.operand);
      sb := sb + " AS `";
      sb := sb + e.alias;
      sb := sb + "`";
      Concat4(start, Render(e.operand), " AS `", e.alias, "`");
    }

    /** Appends a setting. */
    method VisitSetting(s: Setting)
      modifies this
      ensures sb == old(sb) + RenderSetting(s)
    {
      sb := sb + TextRepresentation(s.key);
      sb := sb + " = ";
      sb := sb + s.value;
    }

    /** Appends a table reference. */
    method VisitTable(t: TableReference)
      modifies this
      ensures sb == old(sb) + RenderTable(t)
    {
      sb := sb + t.tableName;
      if t.alias.NonNull? {
        sb := sb + (" AS " + t.alias.value);
      }
    }

    /** Appends a column reference. */
    method VisitColumn(c: ColumnReference)
      modifies this
      ensures sb == old(sb) + RenderColumn(c)
    {
      if c.tableAlias.NonNull? {
        sb := sb + c.tableAlias.value;
        sb := sb + ".";
        sb := sb + c.column.name;
      } else if c.column.table.Null? {
        sb := sb + c.column.name;
      } else {
        sb := sb + c.column.fullQualifiedName;
      }
      if c.alias.NonNull? {
        sb := sb + (" AS " + c.alias.value);
      }
    }

    /** Appends a list of expressions separated by ", ". */
    method VisitList(es: seq<Expr>)
      modifies this
      ensures sb == old(sb) + RenderList(es)
      decreases es, 0
    {
      var i := 0;
      while i < |es|
        invariant 0 <= i <= |es|
        invariant sb == old(sb) + RenderList(es[..i])
      {
        ghost var before := sb;
        ghost var separator := if i > 0 then ", " else "";
        if i != 0 {
          sb := sb + ", ";
        } else {
          assert before + separator == before;
        }
        assert sb == before + separator;
        Visit(es[i]);
        RenderListPrefix(es, i);
        Concat3(old(sb), RenderList(es[..i]), separator, Render(es[i]));
        i := i + 1;
      }
      assert es[..i] == es;
    }

    /** Appends a join; the left table is not visited. */
    method VisitJoin(j: JoinNode)
      modifies this
      ensures sb == old(sb) + RenderJoin(j)
      decreases j
    {
      ghost var start := sb;
      VisitJoinType(j.joinType);
      VisitJoinModifier(j.modifier);
      sb := sb + " JOIN ";
      VisitTable(j.rightTable);
      VisitOptional(" ON ", j.onClause);
      Concat5(start, JoinTypePart(j.joinType), JoinModifierPart(j.modifier), " JOIN ",
              RenderTable(j.rightTable), RenderOptional(" ON ", j.onClause));
    }

    /** Appends " " and the type keyword, or nothing when the type is NONE. */
    method VisitJoinType(t: JoinType)
      modifies this
      ensures sb == old(sb) + JoinTypePart(t)
    {
      if t != JoinType.None {
        sb := sb + " ";
        sb := sb + JoinTypeName(t);
      }
    }

    /** Appends " " and the modifier keyword, or nothing when the modifier is NONE. */
    method VisitJoinModifier(m: JoinModifier)
      modifies this
      ensures sb == old(sb) + JoinModifierPart(m)
    {
      if m != JoinModifier.None {
        sb := sb + " ";
        sb := sb + JoinModifierName(m);
      }
    }

    /** Appends a select, with its clauses in the fixed order. */
    method VisitSelect(s: Select, inner: bool)
      modifies this
      ensures sb == old(sb) + RenderSelect(s, inner)
      decreases s
    {
      ghost var start := sb;
      if inner {
        sb := sb + "(";
      }
      assert sb == start + (if inner then "(" else "");
      sb := sb + "SELECT ";
      match s.fromOptions {
        case SelectDistinct =>
          sb := sb + "DISTINCT ";
        case SelectAll =>
          sb := sb + "";
      }
      ghost var head := sb;
      VisitList(s.fetchColumns);
      VisitOptional(" FROM ", s.fromClause);
      VisitJoins(s.joinClauses);
      VisitOptional(" WHERE ", s.whereClause);
      VisitListClause(" GROUP BY ", s.groupByClause);
      VisitOptional(" HAVING ", s.havingClause);
      VisitListClause(" ORDER BY ", s.orderByClauses);
      VisitSettingsClause(s.settings);
      Concat8(head, RenderList(s.fetchColumns), RenderOptional(" FROM ", s.fromClause),
        RenderJoins(s.joinClauses), RenderOptional(" WHERE ", s.whereClause),
        RenderListClause(" GROUP BY ", s.groupByClause), RenderOptional(" HAVING ", s.havingClause),
        RenderListClause(" ORDER BY ", s.orderByClauses), RenderSettingsClause(s.settings));
      ghost var body := sb;
      if inner {
        sb := sb + ")";
      }
      assert sb == body + (if inner then ")" else "");
      Concat5(start, if inner then "(" else "", "SELECT ", SelectOption(s.fromOptions), SelectClauses(s),
        if inner then ")" else "");
    }

    /** Appends each join in order (the for-each loop over the join clauses). */
    method VisitJoins(joins: seq<JoinNode>)
      modifies this
      ensures sb == old(sb) + RenderJoins(joins)
      decreases joins
    {
      for k := 0 to |joins|
        invariant sb == old(sb) + RenderJoins(joins[..k])
      {
        VisitJoin(joins[k]);
        RenderJoinsPrefix(joins, k);
        Concat2(old(sb), RenderJoins(joins[..k]), RenderJoin(joins[k]));
      }
      assert joins[..|joins|] == joins;
    }

    /** Appends " SETTINGS " and the settings when there are any. */
    method VisitSettingsClause(settings: seq<Setting>)
      modifies this
      ensures sb == old(sb) + RenderSettingsClause(settings)
    {
      if |settings| != 0 {
        sb := sb + " SETTINGS ";
        VisitSettings(settings);
        Concat2(old(sb), " SETTINGS ", RenderSettings(settings));
      }
    }

    /**
     * Appends the settings separated by ", " (the for-each loop with its
     * counter, which tells the first setting from the others).
     */
    method VisitSettings(settings: seq<Setting>)
      modifies this
      ensures sb == old(sb) + RenderSettings(settings)
    {
      var i := 0;
      for k := 0 to |settings|
        invariant i == k
        invariant sb == old(sb) + RenderSettings(settings[..k])
      {
        ghost var before := sb;
        ghost var separator := if k > 0 then ", " else "";
        var first := i == 0;
        i := i + 1;
        if !first {
          sb := sb + ", ";
        } else {
          assert before + separator == before;
        }
        assert sb == before + separator;
        VisitSetting(settings[k]);
        RenderSettingsPrefix(settings, k);
        Concat3(old(sb), RenderSettings(settings[..k]), separator, RenderSetting(settings[k]));
      }
      assert settings[..|settings|] == settings;
    }

    /** Appends `keyword` and the expression when it is not null. */
    method VisitOptional(keyword: string, n: Nullable<Expr>)
      modifies this
      ensures sb == old(sb) + RenderOptional(keyword, n)
      decreases n
    {
      if n.NonNull? {
        sb := sb + keyword;
        Visit(n.value);
        Concat2(old(sb), keyword, Render(n.value));
      }
    }

    /** Appends `keyword` and the list when it is not empty. */
    method VisitListClause(keyword: string, es: seq<Expr>)
      modifies this
      ensures sb == old(sb) + RenderListClause(keyword, es)
      decreases es, 1
    {
      if |es| != 0 {
        sb := sb + keyword;
        VisitList(es);
        Concat2(old(sb), keyword, RenderList(es));
      }
    }
  }

  /** Renders one expression with a fresh visitor. */
  method AsString(e: Expr) returns (s: string)
    ensures s == Render(e)
  {
    var visitor := new ToStringVisitor();
    visitor.Visit(e);
    s := visitor.Get();
  }
}
