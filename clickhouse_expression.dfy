/**
 * The ClickHouse expression model: the type-affinity tags, the join node with
 * its type/modifier compatibility filter, the query settings with their value
 * domains, and the expression tree that the SQL renderer walks.
 *
 * Java `null` is modelled by the `Nullable` datatype. Nodes whose classes are
 * not part of this model (constants, column and table references, selects,
 * ...) appear only through the values the renderer reads from them.
 */
module ClickHouseAst {

  /** A reference that may be `null`. */
  datatype Nullable<+T> = Null | NonNull(value: T)

  // ---------------------------------------------------------------------------
  // Type affinity
  // ---------------------------------------------------------------------------

  /** The closed set of ClickHouse type tags, in declaration order. */
  datatype TypeAffinity =
    | Nothing
    | UInt8 | UInt16 | UInt32 | UInt64 | UInt128
    | Int8 | Int16 | Int32 | Int64 | Int128
    | Float32 | Float64
    | Date | DateTime | DateTime64
    | String | FixedString
    | Enum8 | Enum16
    | Decimal32 | Decimal64 | Decimal128
    | Uuid | Array | Tuple | Set | Interval

  /** The position of a tag in the declaration (Java's `ordinal()`). */
  function Ordinal(t: TypeAffinity): (r: nat)
    ensures r < TypeAffinityCount
  {
    match t
    case Nothing => 0
    case UInt8 => 1
    case UInt16 => 2
    case UInt32 => 3
    case UInt64 => 4
    case UInt128 => 5
    case Int8 => 6
    case Int16 => 7
    case Int32 => 8
    case Int64 => 9
    case Int128 => 10
    case Float32 => 11
    case Float64 => 12
    case Date => 13
    case DateTime => 14
    case DateTime64 => 15
    case String => 16
    case FixedString => 17
    case Enum8 => 18
    case Enum16 => 19
    case Decimal32 => 20
    case Decimal64 => 21
    case Decimal128 => 22
    case Uuid => 23
    case Array => 24
    case Tuple => 25
    case Set => 26
    case Interval => 27
  }

  /** The number of tags. */
  const TypeAffinityCount := 28

  /** The tag at a position of the declaration; the inverse of `Ordinal`. */
  function FromOrdinal(i: nat): (t: TypeAffinity)
    requires i < TypeAffinityCount
    ensures Ordinal(t) == i
  {
    if i < 14 then FromOrdinalLow(i) else FromOrdinalHigh(i)
  }

  /** The tags NOTHING to FLOAT64 and DATE, by position. */
  function FromOrdinalLow(i: nat): (t: TypeAffinity)
    requires i < 14
    ensures Ordinal(t) == i
  {
    if i == 0 then Nothing
    else if i == 1 then UInt8
    else if i == 2 then UInt16
    else if i == 3 then UInt32
    else if i == 4 then UInt64
    else if i == 5 then UInt128
    else if i == 6 then Int8
    else if i == 7 then Int16
    else if i == 8 then Int32
    else if i == 9 then Int64
    else if i == 10 then Int128
    else if i == 11 then Float32
    else if i == 12 then Float64
    else Date
  }

  /** The tags DATETIME to INTERVAL, by position. */
  function FromOrdinalHigh(i: nat): (t: TypeAffinity)
    requires 14 <= i < TypeAffinityCount
    ensures Ordinal(t) == i
  {
    if i == 14 then DateTime
    else if i == 15 then DateTime64
    else if i == 16 then String
    else if i == 17 then FixedString
    else if i == 18 then Enum8
    else if i == 19 then Enum16
    else if i == 20 then Decimal32
    else if i == 21 then Decimal64
    else if i == 22 then Decimal128
    else if i == 23 then Uuid
    else if i == 24 then Array
    else if i == 25 then Tuple
    else if i == 26 then Set
    else Interval
  }

  /** Every tag, in declaration order (Java's `values()`). */
  const AllTypeAffinities: seq<TypeAffinity> := seq(TypeAffinityCount, i requires 0 <= i < TypeAffinityCount => FromOrdinal(i))

  /**
   * The numeric tags are the unsigned and signed integer widths and the two
   * floating-point widths; in declaration order they are exactly the twelve
   * tags after NOTHING.
   */
  function IsNumeric(t: TypeAffinity): (r: bool)
    ensures r <==> 1 <= Ordinal(t) <= 12
  {
    t == UInt8 || t == UInt16 || t == UInt32 || t == UInt64 || t == UInt128
    || t == Int8 || t == Int16 || t == Int32 || t == Int64 || t == Int128
    || t == Float32 || t == Float64
  }

  /** Every tag sits in the declaration at its ordinal. */
  lemma OrdinalRoundTrip(t: TypeAffinity)
    ensures FromOrdinal(Ordinal(t)) == t
    ensures AllTypeAffinities[Ordinal(t)] == t
  {
  }

  /** The declaration lists every tag exactly once. */
  lemma AllTypeAffinitiesDistinct(i: nat, j: nat)
    requires i < j < |AllTypeAffinities|
    ensures AllTypeAffinities[i] != AllTypeAffinities[j]
  {
    assert Ordinal(AllTypeAffinities[i]) == i && Ordinal(AllTypeAffinities[j]) == j;
  }

  /** The numeric tags are the twelve after NOTHING; decimals, dates and strings are not among them. */
  lemma NumericTypeAffinities()
    ensures forall i :: 0 <= i < |AllTypeAffinities| ==>
      (IsNumeric(AllTypeAffinities[i]) <==> 1 <= i <= 12)
    ensures !IsNumeric(Decimal32) && !IsNumeric(Decimal64) && !IsNumeric(Decimal128)
    ensures !IsNumeric(Date) && !IsNumeric(String) && !IsNumeric(Nothing)
  {
    forall i | 0 <= i < |AllTypeAffinities|
      ensures IsNumeric(AllTypeAffinities[i]) <==> 1 <= i <= 12
    {
      assert Ordinal(AllTypeAffinities[i]) == i;
    }
  }

  // ---------------------------------------------------------------------------
  // Joins
  // ---------------------------------------------------------------------------

  datatype JoinType = None | Inner | Cross | Left | Right | Full

  datatype JoinModifier = None | Outer | Anti | Any | All | Asof

  /**
   * The reference table of legal pairs: for each modifier, the join types it
   * may be combined with. Every type may go without a modifier.
   */
  predicate Compatible(t: JoinType, m: JoinModifier)
  {
    match m
    case None => true
    case Outer => t == Left || t == Right || t == Full
    case Anti => t == Left || t == Right
    case Any => t == Inner || t == Left || t == Right
    case All => t == Inner || t == Left || t == Right || t == Full
    case Asof => t == Left || t == JoinType.None
  }

  /**
   * The effective modifier stored on a join: the requested modifier when the
   * pair is legal, NONE otherwise. It never fails.
   */
  function ModifierBasedOnType(t: JoinType, m: JoinModifier): (r: JoinModifier)
    ensures r == m || r == JoinModifier.None
    ensures m == JoinModifier.None ==> r == JoinModifier.None
    ensures r == (if Compatible(t, m) then m else JoinModifier.None)
  {
    if (m == Outer && (t == Inner || t == Cross || t == JoinType.None))
       || (m == Anti && t != Left && t != Right)
       || (m == All && (t == Cross || t == JoinType.None))
       || (m == Any && (t == Cross || t == JoinType.None || t == Full))
       || (m == Asof && (t != Left && t != JoinType.None))
    then JoinModifier.None
    else m
  }

  /** Filtering an already filtered modifier again changes nothing. */
  lemma ModifierFilterIdempotent(t: JoinType, m: JoinModifier)
    ensures ModifierBasedOnType(t, ModifierBasedOnType(t, m)) == ModifierBasedOnType(t, m)
    ensures Compatible(t, ModifierBasedOnType(t, m))
  {
  }

  /** Which join types each modifier survives with. */
  lemma ModifierSurvival(t: JoinType)
    ensures ModifierBasedOnType(t, Outer) == Outer <==> t in {Left, Right, Full}
    ensures ModifierBasedOnType(t, Anti) == Anti <==> t in {Left, Right}
    ensures ModifierBasedOnType(t, All) == All <==> t !in {Cross, JoinType.None}
    ensures ModifierBasedOnType(t, Any) == Any <==> t !in {Cross, JoinType.None, Full}
    ensures ModifierBasedOnType(t, Asof) == Asof <==> t in {Left, JoinType.None}
  {
  }

  /** A CROSS join keeps no modifier at all. */
  lemma CrossJoinDropsEveryModifier(m: JoinModifier)
    ensures ModifierBasedOnType(Cross, m) == JoinModifier.None
  {
  }

  /** The state of a join node as the renderer reads it through its getters. */
  datatype JoinNode = JoinNode(
    leftTable: TableReference,
    rightTable: TableReference,
    onClause: Nullable<Expr>,
    joinType: JoinType,
    modifier: JoinModifier)

  /**
   * A join node. Tables, type and modifier are fixed at construction; only
   * the ON clause can be replaced afterwards.
   */
  class Join {
    const leftTable: TableReference
    const rightTable: TableReference
    var onClause: Nullable<Expr>
    const joinType: JoinType
    const modifier: JoinModifier

    /** The stored modifier is always legal for the stored type. */
    ghost predicate Valid()
      reads this
    {
      Compatible(joinType, modifier)
    }

    /** The five-argument constructor: a CROSS join drops the supplied ON clause. */
    constructor (leftTable: TableReference, rightTable: TableReference,
                 joinType: JoinType, modifier: JoinModifier, onClause: Nullable<Expr>)
      ensures Valid()
      ensures this.leftTable == leftTable && this.rightTable == rightTable
      ensures this.joinType == joinType
      ensures this.modifier == ModifierBasedOnType(joinType, modifier)
      ensures this.onClause == if joinType == Cross then Null else onClause
    {
      this.leftTable := leftTable;
      this.rightTable := rightTable;
      this.joinType := joinType;
      this.modifier := ModifierBasedOnType(joinType, modifier);
      this.onClause := Null;
      new;
      if joinType != Cross {
        this.onClause := onClause;
      }
    }

    /** The four-argument constructor: no ON clause. */
    constructor WithoutOn(leftTable: TableReference, rightTable: TableReference,
                          joinType: JoinType, modifier: JoinModifier)
      ensures Valid()
      ensures this.leftTable == leftTable && this.rightTable == rightTable
      ensures this.joinType == joinType
      ensures this.modifier == ModifierBasedOnType(joinType, modifier)
      ensures this.onClause == Null
    {
      this.leftTable := leftTable;
      this.rightTable := rightTable;
      this.onClause := Null;
      this.joinType := joinType;
      this.modifier := ModifierBasedOnType(joinType, modifier);
    }

    /** The node's current state, as read through its getters. */
    function Snapshot(): (j: JoinNode)
      reads this
      ensures Valid() ==> Compatible(j.joinType, j.modifier)
    {
      JoinNode(leftTable, rightTable, onClause, joinType, modifier)
    }

    /**
     * Replaces the ON clause and nothing else; a CROSS join is not checked
     * again, so it may carry an ON clause after this call.
     */
    method SetOnClause(onClause: Nullable<Expr>)
      requires Valid()
      modifies this
      ensures Valid()
      ensures this.onClause == onClause
    {
      this.onClause := onClause;
    }
  }

  // ---------------------------------------------------------------------------
  // Settings
  // ---------------------------------------------------------------------------

  /** The recognised query settings. */
  datatype SettingKey =
    | JoinAlgorithm
    | JoinAnyTakeLastRow
    | JoinUseNulls
    | PartialMergeJoinOptimizations
    | PartialMergeJoinRowsInRightBlocks
    | JoinOnDiskMaxFilesToMerge
    | AnyJoinDistinctRightTableKeys
    | AggregateFunctionsNullForEmpty
    | EnableOptimizePredicateExpression

  /** The position of a setting in the declaration. */
  function SettingIndex(k: SettingKey): (r: nat)
    ensures r < |SettingTable|
  {
    match k
    case JoinAlgorithm => 0
    case JoinAnyTakeLastRow => 1
    case JoinUseNulls => 2
    case PartialMergeJoinOptimizations => 3
    case PartialMergeJoinRowsInRightBlocks => 4
    case JoinOnDiskMaxFilesToMerge => 5
    case AnyJoinDistinctRightTableKeys => 6
    case AggregateFunctionsNullForEmpty => 7
    case EnableOptimizePredicateExpression => 8
  }

  /**
   * The data each setting is declared with, in declaration order: its SQL
   * name and its legal values ('parallel_hash' is listed twice, as declared).
   */
  const SettingTable: seq<(string, seq<string>)> :=
    [ ("join_algorithm",
       ["'default'", "'grace_hash'", "'hash'", "'parallel_hash'", "'parallel_hash'",
        "'partial_merge'", "'direct'", "'auto'", "'full_sorting_merge'", "'prefer_partial_merge'"]),
      ("join_any_take_last_row", ["0", "1"]),
      ("join_use_nulls", ["0", "1"]),
      ("partial_merge_join_optimizations", ["0", "1"]),
      ("partial_merge_join_rows_in_right_blocks", ["1000", "10000", "32000", "65536", "100000"]),
      ("join_on_disk_max_files_to_merge", ["2", "3", "4", "64"]),
      ("any_join_distinct_right_table_keys", ["0", "1"]),
      ("aggregate_functions_null_for_empty", ["0", "1"]),
      ("enable_optimize_predicate_expression", ["0", "1"]) ]

  /** The setting's name as it appears in SQL; no name is empty. */
  function TextRepresentation(k: SettingKey): (r: string)
    ensures |r| > 0
  {
    SettingTable[SettingIndex(k)].0
  }

  /** The legal values of a setting; no domain is empty. */
  function PossibleValues(k: SettingKey): (r: seq<string>)
    ensures |r| > 0
  {
    SettingTable[SettingIndex(k)].1
  }

  /** The static list of settings the generator draws from. */
  const PossibleSettings: seq<SettingKey> :=
    [ JoinAlgorithm, JoinAnyTakeLastRow, JoinUseNulls, PartialMergeJoinOptimizations,
      PartialMergeJoinRowsInRightBlocks, JoinOnDiskMaxFilesToMerge,
      AnyJoinDistinctRightTableKeys, AggregateFunctionsNullForEmpty,
      EnableOptimizePredicateExpression ]

  /** The static list names every setting, each once. */
  lemma PossibleSettingsComplete(k: SettingKey)
    ensures k in PossibleSettings
    ensures forall i, j :: 0 <= i < j < |PossibleSettings| ==> PossibleSettings[i] != PossibleSettings[j]
  {
  }

  /** Distinct settings have distinct SQL names. */
  lemma TextRepresentationInjective(a: SettingKey, b: SettingKey)
    requires TextRepresentation(a) == TextRepresentation(b)
    ensures a == b
  {
  }

  /** A setting node: its key and the value it was given. */
  datatype Setting = Setting(key: SettingKey, value: string)

  /** A random draw from the key's domain, modelled as an arbitrary choice. */
  method GetPossibleValue(k: SettingKey) returns (v: string)
    ensures v in PossibleValues(k)
  {
    var values := PossibleValues(k);
    assert values[0] in values;
    v :| v in values;
  }

  /** The one-argument constructor: the value is drawn from the key's domain. */
  method NewSetting(k: SettingKey) returns (s: Setting)
    ensures s.key == k
    ensures s.value in PossibleValues(k)
  {
    var v := GetPossibleValue(k);
    s := Setting(k, v);
  }

  /** The two-argument constructor stores an explicit value without checking its domain. */
  lemma ExplicitValueIsNotChecked()
    ensures Setting(JoinUseNulls, "2").value == "2"
    ensures "2" !in PossibleValues(JoinUseNulls)
  {
  }

  // ---------------------------------------------------------------------------
  // The expression tree the renderer walks
  // ---------------------------------------------------------------------------

  /** A table reference: the catalog table's name and an optional query-local alias. */
  datatype TableReference = TableReference(tableName: string, alias: Nullable<string>)

  /**
   * A catalog column: its name, the name of its owning table if any, and its
   * fully qualified name as the catalog derives it.
   */
  datatype Column = Column(name: string, table: Nullable<string>, fullQualifiedName: string)

  /** A column reference with an optional table-alias override and an optional output alias. */
  datatype ColumnReference = ColumnReference(column: Column, tableAlias: Nullable<string>, alias: Nullable<string>)

  /** The result-distinctness option of a select. */
  datatype SelectType = SelectDistinct | SelectAll

  /** The expression variants the renderer handles. */
  datatype Expr =
    | BinaryLogical(left: Expr, op: string, right: Expr)
    | SettingExpr(setting: Setting)
    | UnaryPrefix(prefixOp: string, operand: Expr)
    | UnaryPostfix(operand: Expr, postfixOp: string)
    | Constant(text: string)
    | SelectStmt(select: Select, inner: bool)
    | TableRef(table: TableReference)
    | JoinExpr(join: JoinNode)
    | Aggregate(func: string, operand: Expr)
    | Cast(operand: Expr, targetType: string)
    | ColumnRef(column: ColumnReference)
    | BinaryFunction(func: string, left: Expr, right: Expr)
    | Alias(operand: Expr, alias: string)

  /** A select statement, through the accessors the renderer uses. */
  datatype Select = Select(
    fromOptions: SelectType,
    fetchColumns: seq<Expr>,
    fromClause: Nullable<Expr>,
    joinClauses: seq<JoinNode>,
    whereClause: Nullable<Expr>,
    groupByClause: seq<Expr>,
    havingClause: Nullable<Expr>,
    orderByClauses: seq<Expr>,
    settings: seq<Setting>)

  // ---------------------------------------------------------------------------
  // Nodes that are stored but not rendered by the visitor
  // ---------------------------------------------------------------------------

  /** An existence check over a (sub)query expression. */
  datatype Exist = Exist(expression: Expr)

  /** An opaque, pre-rendered subquery. */
  datatype Subquery = Subquery(query: string)

  /**
   * A literal trailing text fragment after an optional operand, with an
   * optional expected value; it is printed without brackets.
   */
  datatype PostfixText = PostfixText(expression: Nullable<Expr>, text: string, expectedValue: Nullable<string>)
  {
    /** The text doubles as the operator representation. */
    function OperatorRepresentation(): string { text }

    /** Printing omits the brackets around the operand. */
    predicate OmitBracketsWhenPrinting() { true }
  }
}
