# ClickHouse join filter and SQL renderer

A Dafny model of two cooperating pieces of the ClickHouse back end of the
SQLancer fuzzer:

- **The AST node model.**
  - The `TypeAffinity` tags and their `isNumeric` predicate.
  - The `ClickHouseJoin` node. Its constructors filter the requested join
    modifier through `setModifierBasedOnType` and drop the ON clause of a
    CROSS join. `setOnClause` replaces the ON clause later.
  - The `ClickHouseSetting` node. Its key comes from a fixed list of query
    settings, each with a declared domain of values.
- **`ClickHouseToStringVisitor`.** It walks an expression tree and appends
  the canonical SQL text of every node to a `StringBuilder`.

Files:

- `clickhouse_expression.dfy` (module `ClickHouseAst`): the data model.
  - The enums are datatypes.
  - `ClickHouseJoin` is the class `Join`. Its tables, type and modifier are
    constants; its ON clause is a mutable field.
  - Java `null` is the `Nullable` datatype.
  - Setting names and domains are kept in one declaration table,
    `SettingTable`, copied from the enum declaration.
- `clickhouse_to_string_visitor.dfy` (module `ClickHouseToString`): the text
  of every node as pure `Render*` functions, and the visitor.
  - The visitor is the class `ToStringVisitor` with a `string` buffer `sb`.
  - Each `Visit*` method appends step by step, as the Java method does.
  - Each `Visit*` method is proved to append exactly the text of the
    matching `Render*` function.
- `render_properties.dfy` (module `RenderProperties`): lemmas about that
  text, and a decoder for the join header.
  - The lemmas cover parenthesisation, DISTINCT, clause order, settings,
    joins, tables and columns.
  - The decoder reads the join type and modifier back from their text.
- `render_examples.dfy` (module `RenderExamples`): two complete queries,
  built node by node with the `Join` constructor and rendered by `AsString`.
  Each is proved to give its exact text.
  - `SELECT a FROM t AS t1 INNER JOIN u AS u1 ON (a) = (b) WHERE (a) > (0)`.
  - The same query with a second column `b`, `ORDER BY a` and
    `SETTINGS join_use_nulls = 1`.

The `Render*` functions are the reference text of the visitor. Their spans
in src/sqlancer/clickhouse/ClickHouseToStringVisitor.java are:

- `Render`: one case per expression overload, dispatched as at lines 22-25.
  A join node gives `RenderJoin` (line 156).
- `RenderSelect` and `SelectClauses`: lines 67-127.
- `RenderJoin`: lines 156-211, with `JoinHeader` for lines 158-203.
- `RenderTable`: lines 129-137.
- `RenderColumn`: lines 213-227.
- `RenderSetting`: lines 38-43.

These functions are definitions and carry no contract. The `Visit*` rows
below prove that the visitor appends exactly their text. The
`RenderProperties` and `RenderExamples` rows state what that text is.
`ToStringVisitor.Get` (line 250) returns the buffer; `AsString` states what
it holds after a visit.

## Model

| member | source | states |
|---|---|---|
| ClickHouseAst.FromOrdinal | src/sqlancer/clickhouse/ast/ClickHouseExpression.java:12-15 | the tag at each position of the enum declaration is the one whose ordinal is that position |
| ClickHouseAst.OrdinalRoundTrip | src/sqlancer/clickhouse/ast/ClickHouseExpression.java:12-15 | every tag is found in `values()` at its own ordinal (ordinal and position are inverse) |
| ClickHouseAst.AllTypeAffinitiesDistinct | src/sqlancer/clickhouse/ast/ClickHouseExpression.java:12-15 | `values()` lists every tag once: two positions never hold the same tag |
| ClickHouseAst.IsNumeric | src/sqlancer/clickhouse/ast/ClickHouseExpression.java:18-22 | `isNumeric` holds exactly for the tags whose ordinal is 1 to 12 (UINT8 to FLOAT64) |
| ClickHouseAst.NumericTypeAffinities | src/sqlancer/clickhouse/ast/ClickHouseExpression.java:18-22 | every position of `values()` holds a numeric tag iff it is between 1 and 12; DECIMAL32/64/128, DATE, STRING and NOTHING are not numeric |
| ClickHouseAst.ModifierBasedOnType | src/sqlancer/clickhouse/ast/ClickHouseExpression.java:55-64 | the result is the requested modifier or NONE; NONE stays NONE; the result is the modifier exactly when the pair is in the table of legal pairs `Compatible`, else NONE |
| ClickHouseAst.ModifierFilterIdempotent | src/sqlancer/clickhouse/ast/ClickHouseExpression.java:55-64 | filtering the result again with the same type changes nothing, and the result is always legal for the type |
| ClickHouseAst.ModifierSurvival | src/sqlancer/clickhouse/ast/ClickHouseExpression.java:56-60 | OUTER survives only with LEFT/RIGHT/FULL, ANTI only with LEFT/RIGHT, ALL with all but CROSS/NONE, ANY with all but CROSS/NONE/FULL, ASOF only with LEFT/NONE (each an iff) |
| ClickHouseAst.CrossJoinDropsEveryModifier | src/sqlancer/clickhouse/ast/ClickHouseExpression.java:55-64 | a CROSS join keeps no modifier |
| ClickHouseAst.Join.constructor | src/sqlancer/clickhouse/ast/ClickHouseExpression.java:66-75 | both tables and the type are stored unchanged, the modifier is the filtered one, the ON clause is the given one unless the type is CROSS (then null); the join is valid |
| ClickHouseAst.Join.WithoutOn | src/sqlancer/clickhouse/ast/ClickHouseExpression.java:77-84 | as the five-argument constructor, but the ON clause is always null |
| ClickHouseAst.Join.Snapshot | src/sqlancer/clickhouse/ast/ClickHouseExpression.java:86-104 | the values the getters return; on a valid join the modifier read back is legal for the type |
| ClickHouseAst.Join.SetOnClause | src/sqlancer/clickhouse/ast/ClickHouseExpression.java:106-108 | the ON clause becomes the given one (null included), the constant fields cannot change, validity is kept, and CROSS is not re-checked |
| ClickHouseAst.PossibleValues | src/sqlancer/clickhouse/ast/ClickHouseExpression.java:179-197 | every setting has a non-empty domain of values |
| ClickHouseAst.PossibleSettingsComplete | src/sqlancer/clickhouse/ast/ClickHouseExpression.java:208-218 | the static `possibleSettings` list names every setting, each once |
| ClickHouseAst.TextRepresentation | src/sqlancer/clickhouse/ast/ClickHouseExpression.java:203-205 | every setting has a non-empty SQL name, read from the declaration table |
| ClickHouseAst.TextRepresentationInjective | src/sqlancer/clickhouse/ast/ClickHouseExpression.java:179-205 | distinct settings have distinct SQL names |
| ClickHouseAst.GetPossibleValue | src/sqlancer/clickhouse/ast/ClickHouseExpression.java:199-201 | the value drawn belongs to the key's domain |
| ClickHouseAst.NewSetting | src/sqlancer/clickhouse/ast/ClickHouseExpression.java:224-227 | a setting built from a key alone holds that key and a member of its domain |
| ClickHouseAst.ExplicitValueIsNotChecked | src/sqlancer/clickhouse/ast/ClickHouseExpression.java:229-232 | an explicit value is stored verbatim with no domain check ("2" for join_use_nulls, whose domain is "0" and "1") |
| ClickHouseToString.RenderSettingsPrefix | src/sqlancer/clickhouse/ClickHouseToStringVisitor.java:117-122 | the settings text grows by ", " (except before the first) and the next setting |
| ClickHouseToString.RenderListPrefix | src/sqlancer/clickhouse/ClickHouseToStringVisitor.java:84 | the list text grows by ", " (except before the first) and the next expression |
| ClickHouseToString.RenderJoinsPrefix | src/sqlancer/clickhouse/ClickHouseToStringVisitor.java:92-94 | the joins text grows by the next join's text |
| ClickHouseToString.ToStringVisitor.constructor | src/sqlancer/clickhouse/ClickHouseToStringVisitor.java:248 | a fresh visitor has an empty buffer |
| ClickHouseToString.ToStringVisitor.Visit | src/sqlancer/clickhouse/ClickHouseToStringVisitor.java:22-25 | dispatching on the node kind appends exactly `Render(e)`; a constant appends its text (lines 62-65); a join node appends its join text (line 156) |
| ClickHouseToString.ToStringVisitor.VisitBinaryLogical | src/sqlancer/clickhouse/ClickHouseToStringVisitor.java:28-36 | appends "(" L ") " op " (" R ")" |
| ClickHouseToString.ToStringVisitor.VisitSetting | src/sqlancer/clickhouse/ClickHouseToStringVisitor.java:38-43 | appends the key's SQL name, " = " and the value |
| ClickHouseToString.ToStringVisitor.VisitUnaryPrefix | src/sqlancer/clickhouse/ClickHouseToStringVisitor.java:45-51 | appends op " (" e ")" |
| ClickHouseToString.ToStringVisitor.VisitUnaryPostfix | src/sqlancer/clickhouse/ClickHouseToStringVisitor.java:53-60 | appends "(" e ") " op |
| ClickHouseToString.ToStringVisitor.VisitSelect | src/sqlancer/clickhouse/ClickHouseToStringVisitor.java:67-127 | appends `RenderSelect(s, inner)`: optional "(", "SELECT ", the option, the clauses in fixed order, optional ")" |
| ClickHouseToString.ToStringVisitor.VisitList | src/sqlancer/clickhouse/ClickHouseToStringVisitor.java:84 | the loop appends the expressions separated by ", " |
| ClickHouseToString.ToStringVisitor.VisitOptional | src/sqlancer/clickhouse/ClickHouseToStringVisitor.java:85-89 | appends the keyword and the expression only when it is not null |
| ClickHouseToString.ToStringVisitor.VisitJoins | src/sqlancer/clickhouse/ClickHouseToStringVisitor.java:90-95 | the for-each loop appends every join's text in order |
| ClickHouseToString.ToStringVisitor.VisitListClause | src/sqlancer/clickhouse/ClickHouseToStringVisitor.java:100-103 | appends the keyword and the list only when it is not empty |
| ClickHouseToString.ToStringVisitor.VisitSettingsClause | src/sqlancer/clickhouse/ClickHouseToStringVisitor.java:112-123 | appends " SETTINGS " and the settings only when there are any |
| ClickHouseToString.ToStringVisitor.VisitSettings | src/sqlancer/clickhouse/ClickHouseToStringVisitor.java:113-122 | the counter loop appends the settings separated by ", " |
| ClickHouseToString.ToStringVisitor.VisitTable | src/sqlancer/clickhouse/ClickHouseToStringVisitor.java:129-137 | appends the catalog name, then " AS " and the alias iff there is one |
| ClickHouseToString.ToStringVisitor.VisitAggregate | src/sqlancer/clickhouse/ClickHouseToStringVisitor.java:139-145 | appends f "(" e ")" |
| ClickHouseToString.ToStringVisitor.VisitCast | src/sqlancer/clickhouse/ClickHouseToStringVisitor.java:147-154 | appends "CAST(" e " AS " type ")" |
| ClickHouseToString.ToStringVisitor.VisitJoin | src/sqlancer/clickhouse/ClickHouseToStringVisitor.java:156-211 | appends the type part, the modifier part, " JOIN ", the right table and the optional ON clause |
| ClickHouseToString.ToStringVisitor.VisitJoinType | src/sqlancer/clickhouse/ClickHouseToStringVisitor.java:160-181 | appends " " and the type keyword, or nothing for NONE |
| ClickHouseToString.ToStringVisitor.VisitJoinModifier | src/sqlancer/clickhouse/ClickHouseToStringVisitor.java:182-203 | appends " " and the modifier keyword, or nothing for NONE |
| ClickHouseToString.ToStringVisitor.VisitColumn | src/sqlancer/clickhouse/ClickHouseToStringVisitor.java:213-227 | appends alias "." name, or name, or the qualified name, then " AS " and the column alias iff set |
| ClickHouseToString.ToStringVisitor.VisitBinaryFunction | src/sqlancer/clickhouse/ClickHouseToStringVisitor.java:229-237 | appends f "(" L "," R ")" |
| ClickHouseToString.ToStringVisitor.VisitAlias | src/sqlancer/clickhouse/ClickHouseToStringVisitor.java:239-245 | appends e " AS \`" a "\`" |
| ClickHouseToString.AsString | src/sqlancer/clickhouse/ClickHouseToStringVisitor.java:247-251 | a fresh visitor renders the tree to exactly `Render(e)` |
| RenderProperties.InnerSelectIsParenthesised | src/sqlancer/clickhouse/ClickHouseToStringVisitor.java:69-71 | a nested select is the top-level text wrapped in "(" and ")" |
| RenderProperties.SelectOpening | src/sqlancer/clickhouse/ClickHouseToStringVisitor.java:68-72 | the text starts with "(" iff nested; a top-level select starts with "SELECT "; nesting adds exactly two characters |
| RenderProperties.DistinctFollowsSelectKeyword | src/sqlancer/clickhouse/ClickHouseToStringVisitor.java:72-82 | DISTINCT text is ALL text with "DISTINCT " inserted right after "SELECT " |
| RenderProperties.SelectWithoutClauses | src/sqlancer/clickhouse/ClickHouseToStringVisitor.java:84-123 | with every optional clause absent or empty, only "SELECT ", the option and the columns are printed |
| RenderProperties.SettingsComeLast | src/sqlancer/clickhouse/ClickHouseToStringVisitor.java:112-123 | adding a setting appends " SETTINGS " (first) or ", " (later) and its text at the very end |
| RenderProperties.SettingsClauseAppend | src/sqlancer/clickhouse/ClickHouseToStringVisitor.java:112-123 | the settings clause grows by the separator and the new setting |
| RenderProperties.RenderSettingsAppend | src/sqlancer/clickhouse/ClickHouseToStringVisitor.java:117-122 | the settings list grows by ", " and the new setting, with no separator before the first |
| RenderProperties.JoinsComeInOrder | src/sqlancer/clickhouse/ClickHouseToStringVisitor.java:90-95 | with no later clause, adding a join appends its text |
| RenderProperties.WhereClauseAppended | src/sqlancer/clickhouse/ClickHouseToStringVisitor.java:96-99 | with no later clause, setting the WHERE condition appends " WHERE " and its text |
| RenderProperties.SelectLayout | src/sqlancer/clickhouse/ClickHouseToStringVisitor.java:67-127 | a top-level select reads: the head up to FROM, the joins, the WHERE clause, then GROUP BY through SETTINGS |
| RenderProperties.JoinInserted | src/sqlancer/clickhouse/ClickHouseToStringVisitor.java:90-95 | whatever the other clauses hold, a new join's text lands right after the existing joins; the head and the WHERE-to-SETTINGS tail are unchanged |
| RenderProperties.WhereSet | src/sqlancer/clickhouse/ClickHouseToStringVisitor.java:96-99 | whatever the other clauses hold, the WHERE condition prints after " WHERE ", between the joins and the unchanged GROUP BY-to-SETTINGS tail |
| RenderProperties.RenderListAppend | src/sqlancer/clickhouse/ClickHouseToStringVisitor.java:84 | adding a column appends ", " (if not the first) and its text |
| RenderProperties.JoinLeftTableNotRendered | src/sqlancer/clickhouse/ClickHouseToStringVisitor.java:156-211 | the left table never shows up in a join's text |
| RenderProperties.OnClauseComesLast | src/sqlancer/clickhouse/ClickHouseToStringVisitor.java:204-210 | the ON clause is appended last after " ON " iff it is non-null; without it the text is header, " JOIN ", right table |
| RenderProperties.JoinTypeRoundTrip | src/sqlancer/clickhouse/ClickHouseToStringVisitor.java:160-181 | the join type is read back from the header's second character |
| RenderProperties.JoinModifierRoundTrip | src/sqlancer/clickhouse/ClickHouseToStringVisitor.java:182-203 | the modifier is read back from its part |
| RenderProperties.JoinHeaderRoundTrip | src/sqlancer/clickhouse/ClickHouseToStringVisitor.java:158-203 | decoding the text before " JOIN " gives back the type and modifier |
| RenderProperties.JoinHeaderInjective | src/sqlancer/clickhouse/ClickHouseToStringVisitor.java:158-203 | distinct (type, modifier) pairs print distinct headers |
| RenderProperties.TableAliasAppended | src/sqlancer/clickhouse/ClickHouseToStringVisitor.java:129-137 | a table prints its name, and " AS " alias is appended iff an alias is set |
| RenderProperties.ColumnTableAliasWins | src/sqlancer/clickhouse/ClickHouseToStringVisitor.java:215-218 | with a table alias, the column's own table and qualified name do not affect the text |
| RenderProperties.ColumnAliasAppended | src/sqlancer/clickhouse/ClickHouseToStringVisitor.java:224-226 | a column alias is appended after " AS " |
| RenderProperties.CrossJoinText | src/sqlancer/clickhouse/ast/ClickHouseExpression.java:66-75 | a CROSS join built with any modifier and ON clause prints as " CROSS JOIN " and the right table |
| RenderProperties.JoinTextAfterSetOnClause | src/sqlancer/clickhouse/ast/ClickHouseExpression.java:106-108 | after `setOnClause`, the join prints the ON clause whatever its type, CROSS included |
| RenderProperties.AsStringTwice | src/sqlancer/clickhouse/ClickHouseToStringVisitor.java:247-251 | rendering the same tree twice gives the same text |
| RenderExamples.InnerJoinText | src/sqlancer/clickhouse/ClickHouseToStringVisitor.java:156-211 | the INNER join of u AS u1 on (a) = (b) prints " INNER JOIN u AS u1 ON (a) = (b)" |
| RenderExamples.JoinQueryRendered | src/sqlancer/clickhouse/ClickHouseToStringVisitor.java:67-127 | the join query prints exactly `SELECT a FROM t AS t1 INNER JOIN u AS u1 ON (a) = (b) WHERE (a) > (0)` |
| RenderExamples.OrderedJoinQueryRendered | src/sqlancer/clickhouse/ClickHouseToStringVisitor.java:67-127 | the query with columns a, b, ORDER BY a and join_use_nulls = 1 prints exactly that text, the ORDER BY and SETTINGS clauses last |
| RenderExamples.JoinQueryText | src/sqlancer/clickhouse/ast/ClickHouseExpression.java:66-75 | a join built by the five-argument constructor, placed in the select and rendered by `AsString`, gives exactly the join query's text |
| RenderExamples.OrderedJoinQueryText | src/sqlancer/clickhouse/ClickHouseToStringVisitor.java:247-251 | the same, through `AsString`, for the query with ORDER BY and SETTINGS |

## Left out

- Randomness: `Randomly.fromOptions` (ClickHouseExpression.java:200) is an arbitrary choice from the domain (`:|`), not a random number generator.
- The base class `ToStringVisitor`, which owns the buffer and list rendering, is not part of this model. Its list separator is assumed to be ", ". The buffer is the visitor's `sb` field, and `Get` returns it.
- `ClickHouseVisitor` dispatch is not part of this model. `Visit` matches on the node kind instead. A select node carries its `inner` flag, because the dispatch that chooses the flag is not shown.
- Classes not shown (`ClickHouseSelect`, `ClickHouseColumnReference`, `ClickHouseConstant`, the catalog table and column) appear only through the values the visitor reads from them. A constant's `toString()`, an operator's text, a cast's type name and a column's qualified name are plain strings.
- Rendering of `ClickHousePostfixText`, `ClickHouseExist` and `ClickHouseSubquery` is not modelled, since the visitor has no overload for them. Only their stored fields are kept, as datatypes outside `Expr`. The expected value of a postfix text is an uninterpreted string.
- `PostfixText.OperatorRepresentation` returns the node's text and `PostfixText.OmitBracketsWhenPrinting` is always true (ClickHouseExpression.java:160-173). Nothing in the model reads either of them, so they carry no contract.
- The `UnsupportedOperationException` and `AssertionError` default branches (ClickHouseToStringVisitor.java:81, :179, :201) cannot be reached with closed datatypes.
- The Java getters are the `Join` fields themselves. `Join.Snapshot` is the value the visitor reads, so the visitor renders a `JoinNode` value rather than the object. A select's `joinClauses` holds such values, not references, so Java's aliasing is lost: calling `setOnClause` on a join that is already in a select changes that select's Java text, but in the model only a new snapshot placed in the select does.
- Each `visit` overload that appends several pieces is split into small helper methods (`VisitJoinType`, `VisitOptional`, `VisitJoins`, ...). They append the same pieces in the same order.
- Join.Snapshot: its contract states only that a valid join reads back a legal pair; that it returns the field values is its definition.
- The query generator, schema, oracles, database connection and logging are out of scope.
