/**
 * The query the `searchProperties` tool sends to the property store
 * (app/api/chat/route.ts, `execute`, lines 48-91).
 *
 * The tool starts from a fixed SELECT whose only condition is that the
 * property is available, appends one `AND <column> <operator> ?` clause and
 * pushes one parameter for every criterion that is truthy, in a fixed order,
 * and ends with the newest-first ordering and the limit of five rows.
 * JavaScript truthiness decides what "present" means: a missing field, an
 * empty string and the number 0 all add nothing; a negative number is truthy.
 *
 * The store binds the placeholders positionally: the first `?` takes the
 * first parameter, and so on.  `Bind` models that, and `BindQuery` shows that
 * every condition the tool writes is bound to its own criterion's value.
 */
module QueryBuilder {
  import opened Wrappers

  /** The two values the tool's argument schema allows for `operationType`. */
  datatype OperationType = Compra | Alquiler

  function OperationText(o: OperationType): string
  {
    match o
    case Compra => "compra"
    case Alquiler => "alquiler"
  }

  /** The tool's arguments; every field is optional. Prices and counts are integers. */
  datatype Criteria = Criteria(
    operationType: Option<OperationType>,
    location: Option<string>,
    maxPrice: Option<int>,
    minPrice: Option<int>,
    propertyType: Option<string>,
    bedrooms: Option<int>,
    bathrooms: Option<int>)

  /** A value bound to one `?` placeholder. */
  datatype Param = PText(s: string) | PNumber(n: int)

  /** JavaScript truthiness of an optional string: present and not empty. */
  predicate TextTruthy(o: Option<string>)
  {
    o.Some? && o.value != ""
  }

  /** JavaScript truthiness of an optional number: present and not zero. */
  predicate NumberTruthy(o: Option<int>)
  {
    o.Some? && o.value != 0
  }

  /** The criteria, in the order the tool tests them. */
  datatype Field =
    | OperationTypeField
    | LocationField
    | MaxPriceField
    | MinPriceField
    | PropertyTypeField
    | BedroomsField
    | BathroomsField

  /** Whether the tool's `if` for this criterion succeeds. */
  predicate Included(c: Criteria, f: Field)
  {
    match f
    case OperationTypeField => c.operationType.Some?
    case LocationField => TextTruthy(c.location)
    case MaxPriceField => NumberTruthy(c.maxPrice)
    case MinPriceField => NumberTruthy(c.minPrice)
    case PropertyTypeField => TextTruthy(c.propertyType)
    case BedroomsField => NumberTruthy(c.bedrooms)
    case BathroomsField => NumberTruthy(c.bathrooms)
  }

  /** The parameter the tool pushes for an included criterion; the location is wrapped in `%` wildcards. */
  function Value(c: Criteria, f: Field): Param
    requires Included(c, f)
  {
    match f
    case OperationTypeField => PText(OperationText(c.operationType.value))
    case LocationField => PText("%" + c.location.value + "%")
    case MaxPriceField => PNumber(c.maxPrice.value)
    case MinPriceField => PNumber(c.minPrice.value)
    case PropertyTypeField => PText(c.propertyType.value)
    case BedroomsField => PNumber(c.bedrooms.value)
    case BathroomsField => PNumber(c.bathrooms.value)
  }

  /** The clause the tool appends for a field, as the tool writes it. */
  function ClauseText(f: Field): string
  {
    match f
    case OperationTypeField => " AND i.operation_type = ?"
    case LocationField => " AND i.location LIKE ?"
    case MaxPriceField => " AND i.price <= ?"
    case MinPriceField => " AND i.price >= ?"
    case PropertyTypeField => " AND i.type = ?"
    case BedroomsField => " AND i.bedrooms >= ?"
    case BathroomsField => " AND i.bathrooms >= ?"
  }

  /** The condition of a clause: the column and the comparison, without the placeholder. */
  function Condition(f: Field): string
  {
    match f
    case OperationTypeField => " AND i.operation_type = "
    case LocationField => " AND i.location LIKE "
    case MaxPriceField => " AND i.price <= "
    case MinPriceField => " AND i.price >= "
    case PropertyTypeField => " AND i.type = "
    case BedroomsField => " AND i.bedrooms >= "
    case BathroomsField => " AND i.bathrooms >= "
  }

  /** Every clause is its condition followed by exactly one placeholder, its last character. */
  lemma ClauseShape(f: Field)
    ensures ClauseText(f) == Condition(f) + "?"
    ensures '?' !in Condition(f)
  {
  }

  /** The fixed part of the query, piece by piece as the template literal spells it. */
  const BaseQuery: string := SelectLine + FromLines + WhereLine

  const SelectLine: string :=
    "\n          SELECT i.*,"
    + " u.name as owner_name,"
    + " u.phone as owner_phone"

  const FromLines: string :=
    "\n          FROM inmueble i "
    + "\n          LEFT JOIN users u"
    + " ON i.owner_id = u.id "

  const WhereLine: string :=
    "\n          WHERE i.status = 'disponible'"
    + "\n        "

  const OrderClause: string := " ORDER BY i.created_at DESC LIMIT 5"

  lemma FixedTextsHaveNoPlaceholder()
    ensures '?' !in BaseQuery
    ensures '?' !in OrderClause
  {
    SelectLineHasNoPlaceholder();
    FromLinesHaveNoPlaceholder();
    WhereLineHasNoPlaceholder();
    NoPlaceholderConcat(SelectLine, FromLines);
    NoPlaceholderConcat(SelectLine + FromLines, WhereLine);
  }

  lemma SelectLineHasNoPlaceholder()
    ensures '?' !in SelectLine
  {
    NoPlaceholderConcat("\n          SELECT i.*,", " u.name as owner_name,");
    NoPlaceholderConcat("\n          SELECT i.*," + " u.name as owner_name,", " u.phone as owner_phone");
  }

  lemma FromLinesHaveNoPlaceholder()
    ensures '?' !in FromLines
  {
    NoPlaceholderConcat("\n          FROM inmueble i ", "\n          LEFT JOIN users u");
    NoPlaceholderConcat("\n          FROM inmueble i " + "\n          LEFT JOIN users u", " ON i.owner_id = u.id ");
  }

  lemma WhereLineHasNoPlaceholder()
    ensures '?' !in WhereLine
  {
    NoPlaceholderConcat("\n          WHERE i.status = 'disponible'", "\n        ");
  }

  lemma NoPlaceholderConcat(a: string, b: string)
    requires '?' !in a && '?' !in b
    ensures '?' !in a + b
  {
  }

  /** The text one criterion adds: its clause when it is truthy, nothing otherwise. */
  function ClausePart(c: Criteria, f: Field): string
  {
    if Included(c, f) then ClauseText(f) else ""
  }

  /** The parameters one criterion adds: its value when it is truthy, nothing otherwise. */
  function ParamPart(c: Criteria, f: Field): seq<Param>
  {
    if Included(c, f) then [Value(c, f)] else []
  }

  /** The query text the tool builds for the criteria. */
  function QueryText(c: Criteria): string
  {
    BaseQuery + ClausePart(c, OperationTypeField) + ClausePart(c, LocationField)
    + ClausePart(c, MaxPriceField) + ClausePart(c, MinPriceField)
    + ClausePart(c, PropertyTypeField) + ClausePart(c, BedroomsField)
    + ClausePart(c, BathroomsField) + OrderClause
  }

  /** The parameters the tool builds for the criteria. */
  function Params(c: Criteria): seq<Param>
  {
    [] + ParamPart(c, OperationTypeField) + ParamPart(c, LocationField)
    + ParamPart(c, MaxPriceField) + ParamPart(c, MinPriceField)
    + ParamPart(c, PropertyTypeField) + ParamPart(c, BedroomsField)
    + ParamPart(c, BathroomsField)
  }

  /** One step of the construction: the tool's `if` appends exactly the criterion's part. */
  lemma PartStep(sql0: string, params0: seq<Param>, sql: string, params: seq<Param>, c: Criteria, f: Field)
    requires Included(c, f) ==> sql == sql0 + ClauseText(f) && params == params0 + [Value(c, f)]
    requires !Included(c, f) ==> sql == sql0 && params == params0
    ensures sql == sql0 + ClausePart(c, f) && params == params0 + ParamPart(c, f)
  {
  }

  /** The text appended step by step is the base text and the criteria's clause parts, in order. */
  lemma TextChain(c: Criteria, s0: string, s1: string, s2: string, s3: string, s4: string, s5: string, s6: string, s7: string)
    requires s0 == BaseQuery
    requires s1 == s0 + ClausePart(c, OperationTypeField)
    requires s2 == s1 + ClausePart(c, LocationField)
    requires s3 == s2 + ClausePart(c, MaxPriceField)
    requires s4 == s3 + ClausePart(c, MinPriceField)
    requires s5 == s4 + ClausePart(c, PropertyTypeField)
    requires s6 == s5 + ClausePart(c, BedroomsField)
    requires s7 == s6 + ClausePart(c, BathroomsField)
    ensures s7 + OrderClause == QueryText(c)
  {
  }

  /** The parameters pushed step by step are the criteria's parameter parts, in order. */
  lemma ParamsChain(c: Criteria, p0: seq<Param>, p1: seq<Param>, p2: seq<Param>, p3: seq<Param>, p4: seq<Param>, p5: seq<Param>, p6: seq<Param>, p7: seq<Param>)
    requires p0 == []
    requires p1 == p0 + ParamPart(c, OperationTypeField)
    requires p2 == p1 + ParamPart(c, LocationField)
    requires p3 == p2 + ParamPart(c, MaxPriceField)
    requires p4 == p3 + ParamPart(c, MinPriceField)
    requires p5 == p4 + ParamPart(c, PropertyTypeField)
    requires p6 == p5 + ParamPart(c, BedroomsField)
    requires p7 == p6 + ParamPart(c, BathroomsField)
    ensures p7 == Params(c)
  {
  }

  /**
   * The tool's query construction, written as the tool writes it: the base
   * text, one clause and one parameter per truthy criterion, the ordering
   * and the limit.
   */
  method BuildQuery(c: Criteria) returns (sql: string, params: seq<Param>)
    ensures sql == QueryText(c) && params == Params(c)
  {
    sql := BaseQuery;
    params := [];
    ghost var sql0, params0;
    ghost var p0, s0 := params, sql;

    sql0, params0 := sql, params;
    if c.operationType.Some? {
      sql := sql + " AND i.operation_type = ?";
      params := params + [PText(OperationText(c.operationType.value))];
    }
    PartStep(sql0, params0, sql, params, c, OperationTypeField);
    ghost var p1, s1 := params, sql;

    sql0, params0 := sql, params;
    if TextTruthy(c.location) {
      sql := sql + " AND i.location LIKE ?";
      params := params + [PText("%" + c.location.value + "%")];
    }
    PartStep(sql0, params0, sql, params, c, LocationField);
    ghost var p2, s2 := params, sql;

    sql0, params0 := sql, params;
    if NumberTruthy(c.maxPrice) {
      sql := sql + " AND i.price <= ?";
      params := params + [PNumber(c.maxPrice.value)];
    }
    PartStep(sql0, params0, sql, params, c, MaxPriceField);
    ghost var p3, s3 := params, sql;

    sql0, params0 := sql, params;
    if NumberTruthy(c.minPrice) {
      sql := sql + " AND i.price >= ?";
      params := params + [PNumber(c.minPrice.value)];
    }
    PartStep(sql0, params0, sql, params, c, MinPriceField);
    ghost var p4, s4 := params, sql;

    sql0, params0 := sql, params;
    if TextTruthy(c.propertyType) {
      sql := sql + " AND i.type = ?";
      params := params + [PText(c.propertyType.value)];
    }
    PartStep(sql0, params0, sql, params, c, PropertyTypeField);
    ghost var p5, s5 := params, sql;

    sql0, params0 := sql, params;
    if NumberTruthy(c.bedrooms) {
      sql := sql + " AND i.bedrooms >= ?";
      params := params + [PNumber(c.bedrooms.value)];
    }
    PartStep(sql0, params0, sql, params, c, BedroomsField);
    ghost var p6, s6 := params, sql;

    sql0, params0 := sql, params;
    if NumberTruthy(c.bathrooms) {
      sql := sql + " AND i.bathrooms >= ?";
      params := params + [PNumber(c.bathrooms.value)];
    }
    PartStep(sql0, params0, sql, params, c, BathroomsField);
    ghost var p7, s7 := params, sql;

    ParamsChain(c, p0, p1, p2, p3, p4, p5, p6, p7);
    TextChain(c, s0, s1, s2, s3, s4, s5, s6, s7);
    sql := sql + " ORDER BY i.created_at DESC LIMIT 5";
  }

  // ---------------------------------------------------------------------
  // What the query means: its fixed frame, its placeholder count, and the
  // value the store binds to each condition.

  /** How many criteria are truthy, counted criterion by criterion. */
  function TruthyCount(c: Criteria): nat
  {
    (if c.operationType.Some? then 1 else 0)
    + (if TextTruthy(c.location) then 1 else 0)
    + (if NumberTruthy(c.maxPrice) then 1 else 0)
    + (if NumberTruthy(c.minPrice) then 1 else 0)
    + (if TextTruthy(c.propertyType) then 1 else 0)
    + (if NumberTruthy(c.bedrooms) then 1 else 0)
    + (if NumberTruthy(c.bathrooms) then 1 else 0)
  }

  /** One parameter per truthy criterion. */
  lemma ParamsCount(c: Criteria)
    ensures |Params(c)| == TruthyCount(c)
  {
  }

  lemma AppendBounds(a: string, b: string)
    ensures a <= a + b
    ensures (a + b)[|a|..] == b
  {
  }

  lemma PrefixGrows(a: string, b: string, x: string)
    requires a <= b
    ensures a <= b + x
  {
  }

  /** Whatever the criteria, the query starts with the available-properties SELECT and ends with the ordering and limit. */
  lemma QueryFrame(c: Criteria)
    ensures BaseQuery <= QueryText(c)
    ensures |OrderClause| <= |QueryText(c)|
    ensures QueryText(c)[|QueryText(c)| - |OrderClause|..] == OrderClause
  {
    var s0 := BaseQuery + ClausePart(c, OperationTypeField);
    var s1 := s0 + ClausePart(c, LocationField);
    var s2 := s1 + ClausePart(c, MaxPriceField);
    var s3 := s2 + ClausePart(c, MinPriceField);
    var s4 := s3 + ClausePart(c, PropertyTypeField);
    var s5 := s4 + ClausePart(c, BedroomsField);
    var s6 := s5 + ClausePart(c, BathroomsField);
    AppendBounds(BaseQuery, ClausePart(c, OperationTypeField));
    PrefixGrows(BaseQuery, s0, ClausePart(c, LocationField));
    PrefixGrows(BaseQuery, s1, ClausePart(c, MaxPriceField));
    PrefixGrows(BaseQuery, s2, ClausePart(c, MinPriceField));
    PrefixGrows(BaseQuery, s3, ClausePart(c, PropertyTypeField));
    PrefixGrows(BaseQuery, s4, ClausePart(c, BedroomsField));
    PrefixGrows(BaseQuery, s5, ClausePart(c, BathroomsField));
    PrefixGrows(BaseQuery, s6, OrderClause);
    AppendBounds(s6, OrderClause);
  }

  /** How many placeholders a text holds. */
  function Count(s: string): nat
  {
    if s == [] then 0 else (if s[0] == '?' then 1 else 0) + Count(s[1..])
  }

  /** One piece of the statement the store executes: a character of the text, or a bound value. */
  datatype Piece = Lit(ch: char) | Slot(param: Param)

  /** The characters of a text with nothing bound. */
  function Lits(s: string): (r: seq<Piece>)
    ensures |r| == |s|
  {
    if s == [] then [] else [Lit(s[0])] + Lits(s[1..])
  }

  /**
   * Positional binding: each `?` in turn takes the next parameter, every
   * other character stays.  Binding fails unless there are exactly as many
   * parameters as placeholders.
   */
  function Bind(s: string, ps: seq<Param>): (r: Option<seq<Piece>>)
    ensures r.Some? <==> Count(s) == |ps|
    ensures r.Some? ==> |r.value| == |s|
  {
    if s == [] then
      if ps == [] then Some([]) else None
    else if s[0] == '?' then
      if ps == [] then None
      else match Bind(s[1..], ps[1..])
        case None => None
        case Some(rest) => Some([Slot(ps[0])] + rest)
    else
      match Bind(s[1..], ps)
      case None => None
      case Some(rest) => Some([Lit(s[0])] + rest)
  }

  /** A text without placeholders binds no parameter and stays as it is. */
  lemma {:induction false} BindLiteral(s: string)
    requires '?' !in s
    ensures Bind(s, []) == Some(Lits(s))
  {
    if s != [] {
      assert s[0] in s;
      assert forall x | x in s[1..] :: x in s;
      BindLiteral(s[1..]);
    }
  }

  /** Binding works piece by piece: two texts bound to their own parameters bind together. */
  lemma {:induction false} BindAppend(a: string, pa: seq<Param>, b: string, pb: seq<Param>)
    requires Bind(a, pa).Some? && Bind(b, pb).Some?
    ensures Bind(a + b, pa + pb) == Some(Bind(a, pa).value + Bind(b, pb).value)
    decreases |a|
  {
    var rb := Bind(b, pb).value;
    if a == [] {
      assert a + b == b && pa == [] && pa + pb == pb;
      assert [] + rb == rb;
    } else if a[0] == '?' {
      var a', pa' := a[1..], pa[1..];
      var ra := Bind(a', pa').value;
      assert Bind(a, pa) == Some([Slot(pa[0])] + ra);
      BindAppend(a', pa', b, pb);
      assert (a + b)[0] == '?' && (a + b)[1..] == a' + b;
      assert (pa + pb)[0] == pa[0] && (pa + pb)[1..] == pa' + pb;
      assert Bind(a + b, pa + pb) == Some([Slot(pa[0])] + (ra + rb));
      ConsAssoc(Slot(pa[0]), ra, rb);
    } else {
      var a' := a[1..];
      var ra := Bind(a', pa).value;
      assert Bind(a, pa) == Some([Lit(a[0])] + ra);
      BindAppend(a', pa, b, pb);
      assert (a + b)[0] == a[0] && (a + b)[1..] == a' + b;
      assert Bind(a + b, pa + pb) == Some([Lit(a[0])] + (ra + rb));
      ConsAssoc(Lit(a[0]), ra, rb);
    }
  }

  lemma ConsAssoc(x: Piece, r: seq<Piece>, s: seq<Piece>)
    ensures [x] + (r + s) == ([x] + r) + s
  {
  }

  /** What the store sees for one criterion: its condition, then its own value. */
  function BoundPart(c: Criteria, f: Field): seq<Piece>
  {
    if Included(c, f) then Lits(Condition(f)) + [Slot(Value(c, f))] else []
  }

  lemma BindPart(c: Criteria, f: Field)
    ensures Bind(ClausePart(c, f), ParamPart(c, f)) == Some(BoundPart(c, f))
  {
    if Included(c, f) {
      var cond, v := Condition(f), Value(c, f);
      ClauseShape(f);
      assert ClausePart(c, f) == cond + "?";
      assert ParamPart(c, f) == [] + [v];
      BindLiteral(cond);
      assert "?"[1..] == [];
      assert [v][1..] == [];
      assert [Slot(v)] + [] == [Slot(v)];
      assert Bind("?", [v]) == Some([Slot(v)]);
      BindAppend(cond, [], "?", [v]);
    } else {
      assert Bind("", []) == Some([]);
    }
  }

  /**
   * The store binds every condition the tool writes to that criterion's own
   * value, in the tool's order, between the unchanged base text and the
   * unchanged ordering clause.
   */
  lemma BindQuery(c: Criteria)
    ensures Bind(QueryText(c), Params(c)) == Some(
      Lits(BaseQuery) + BoundPart(c, OperationTypeField) + BoundPart(c, LocationField)
      + BoundPart(c, MaxPriceField) + BoundPart(c, MinPriceField)
      + BoundPart(c, PropertyTypeField) + BoundPart(c, BedroomsField)
      + BoundPart(c, BathroomsField) + Lits(OrderClause))
  {
    FixedTextsHaveNoPlaceholder();
    BindLiteral(BaseQuery);
    BindLiteral(OrderClause);
    var s0, p0, r0 := BaseQuery, [], Lits(BaseQuery);
    var s1, p1, r1 := BindStep(c, s0, p0, r0, OperationTypeField);
    var s2, p2, r2 := BindStep(c, s1, p1, r1, LocationField);
    var s3, p3, r3 := BindStep(c, s2, p2, r2, MaxPriceField);
    var s4, p4, r4 := BindStep(c, s3, p3, r3, MinPriceField);
    var s5, p5, r5 := BindStep(c, s4, p4, r4, PropertyTypeField);
    var s6, p6, r6 := BindStep(c, s5, p5, r5, BedroomsField);
    var s7, p7, r7 := BindStep(c, s6, p6, r6, BathroomsField);
    BindAppend(s7, p7, OrderClause, []);
    assert p7 + [] == p7;
  }

  /** One criterion further: its part binds after what is bound already. */
  lemma BindStep(c: Criteria, s: string, ps: seq<Param>, r: seq<Piece>, f: Field)
    returns (s': string, ps': seq<Param>, r': seq<Piece>)
    requires Bind(s, ps) == Some(r)
    ensures s' == s + ClausePart(c, f) && ps' == ps + ParamPart(c, f) && r' == r + BoundPart(c, f)
    ensures Bind(s', ps') == Some(r')
  {
    s', ps', r' := s + ClausePart(c, f), ps + ParamPart(c, f), r + BoundPart(c, f);
    BindPart(c, f);
    BindAppend(s, ps, ClausePart(c, f), ParamPart(c, f));
  }

  /** As many placeholders as parameters, and as many as truthy criteria. */
  lemma PlaceholderCount(c: Criteria)
    ensures Count(QueryText(c)) == |Params(c)| == TruthyCount(c)
  {
    BindQuery(c);
    ParamsCount(c);
  }

  /** The criteria `{operationType: "alquiler", location: "Valencia", maxPrice: 500}`. */
  lemma RentalInValencia()
    ensures var c := Criteria(Some(Alquiler), Some("Valencia"), Some(500), None, None, None, None);
      QueryText(c) == BaseQuery + " AND i.operation_type = ?" + " AND i.location LIKE ?" + " AND i.price <= ?" + OrderClause
      && Params(c) == [PText("alquiler"), PText("%Valencia%"), PNumber(500)]
  {
    var c := Criteria(Some(Alquiler), Some("Valencia"), Some(500), None, None, None, None);
    assert "%" + "Valencia" + "%" == "%Valencia%";
    assert Params(c) == [] + [PText("alquiler")] + [PText("%Valencia%")] + [PNumber(500)] + [] + [] + [] + [];
  }
}
